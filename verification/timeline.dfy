/** The life timeline: up to six events derived from a record, in a fixed category order,
    and the page state that shows the timeline of the selected record. */
module Timeline {
  import opened Wrappers
  import opened Record
  import Text

  /** What `new Date(s).getFullYear()` yields for a date string: a year, or NaN when the
      string does not parse. The parse itself is a parameter of the model. */
  datatype ParsedYear = Year(value: int) | NaN

  /** The six kinds of event, in the order the timeline lists them. */
  datatype Category = Birth | Childhood | Education | Career | Family | Goals

  /** One entry of the timeline, as the page shows it. */
  datatype Event = Event(year: string, category: Category, title: string, description: string, icon: string)

  const Categories: seq<Category> := [Birth, Childhood, Education, Career, Category.Family, Goals]

  /** The category label shown on an event. */
  function CategoryName(c: Category): string {
    match c
    case Birth => "Birth"
    case Childhood => "Childhood"
    case Education => "Education"
    case Career => "Career"
    case Family => "Family"
    case Goals => "Goals"
  }

  /** No two categories share a label, so the label shown on an event names its category. */
  lemma CategoryNamesDistinct(a: Category, b: Category)
    ensures CategoryName(a) == CategoryName(b) <==> a == b
  {
  }

  /** The position of each category in the timeline order. */
  function Rank(c: Category): (n: nat)
    ensures n < |Categories| && Categories[n] == c
  {
    match c
    case Birth => 0
    case Childhood => 1
    case Education => 2
    case Career => 3
    case Family => 4
    case Goals => 5
  }

  /** The record field whose presence makes the category's event appear. */
  function SourceField(c: Category): Field {
    match c
    case Birth => DateOfBirth
    case Childhood => SignificantEvents
    case Education => Schools
    case Career => CareerPath
    case Family => Relationships
    case Goals => FutureGoals
  }

  /** The value of the category's source field in a record. */
  function Source(c: Category, a: Autobiography): string
  {
    match c
    case Birth => a.personalInfo.dateOfBirth
    case Childhood => a.childhoodMemories.significantEvents
    case Education => a.educationJourney.schools
    case Career => a.careerAchievements.careerPath
    case Family => a.familyRelationships.relationships
    case Goals => a.dreamsBeliefsGoals.futureGoals
  }

  /** Each category reads exactly its source field of the record. */
  lemma SourceIsField(c: Category, a: Autobiography)
    ensures Source(c, a) == Get(a, SourceField(c))
  {
  }

  /** `getFullYear().toString()` after adding an offset: decimal digits, or "NaN". */
  function YearText(y: ParsedYear, offset: int): string {
    match y
    case Year(n) => Text.IntToString(n + offset)
    case NaN => "NaN"
  }

  /** The birth year the later events count from: the parsed date of birth, or 2000 when
      there is none. */
  function BirthYear(a: Autobiography, yearOf: string -> ParsedYear): ParsedYear {
    if a.personalInfo.dateOfBirth != "" then yearOf(a.personalInfo.dateOfBirth) else Year(2000)
  }

  /** `s.substring(0, 200) + '...'`: at most the first 200 characters, always followed by an ellipsis. */
  function Excerpt(s: string): (r: string)
    ensures |s| <= 200 ==> r == s + "..."
    ensures |s| > 200 ==> |r| == 203 && r[..200] == s[..200]
    ensures 3 <= |r| <= 203 && r[|r| - 3..] == "..." && r[..|r| - 3] <= s
  {
    var n := if |s| < 200 then |s| else 200;
    assert (s[..n] + "...")[..n] == s[..n];
    s[..n] + "..."
  }

  /** The event the page builds for a category, when the category's field is present. */
  function EventFor(c: Category, a: Autobiography, yearOf: string -> ParsedYear): (e: Event)
    ensures e.category == c
    ensures c == Birth ==> e.description == "Born in " + a.personalInfo.birthplace
    ensures c != Birth ==> e.description == Excerpt(Source(c, a))
    ensures c == Birth ==> e.year == YearText(yearOf(a.personalInfo.dateOfBirth), 0)
    ensures c == Childhood ==> e.year == YearText(BirthYear(a, yearOf), 5)
    ensures c == Education ==> e.year == YearText(BirthYear(a, yearOf), 12)
    ensures c == Career ==> e.year == YearText(BirthYear(a, yearOf), 22)
    ensures c == Category.Family ==> e.year == "Recent Years"
    ensures c == Goals ==> e.year == "Future"
  {
    match c
    case Birth =>
      Event(YearText(yearOf(a.personalInfo.dateOfBirth), 0), Birth, "Born",
            "Born in " + a.personalInfo.birthplace, "\U{1F476}")
    case Childhood =>
      Event(YearText(BirthYear(a, yearOf), 5), Childhood, "Childhood Years",
            Excerpt(a.childhoodMemories.significantEvents), "\U{1F9F8}")
    case Education =>
      Event(YearText(BirthYear(a, yearOf), 12), Education, "Education Journey",
            Excerpt(a.educationJourney.schools), "\U{1F393}")
    case Career =>
      Event(YearText(BirthYear(a, yearOf), 22), Career, "Career Path",
            Excerpt(a.careerAchievements.careerPath), "\U{1F4BC}")
    case Family =>
      Event("Recent Years", Category.Family, "Relationships & Family",
            Excerpt(a.familyRelationships.relationships), "\U{2764}\U{FE0F}")
    case Goals =>
      Event("Future", Goals, "Dreams & Future",
            Excerpt(a.dreamsBeliefsGoals.futureGoals), "\U{2B50}")
  }

  /** The events of one category: its event when its field is non-empty, else nothing. */
  function Step(c: Category, a: Autobiography, yearOf: string -> ParsedYear): seq<Event> {
    if Source(c, a) != "" then [EventFor(c, a, yearOf)] else []
  }

  /** `generateTimeline`: one conditional push per category, in the source's order. */
  function Timeline(a: Autobiography, yearOf: string -> ParsedYear): seq<Event> {
    Step(Birth, a, yearOf) + Step(Childhood, a, yearOf) + Step(Education, a, yearOf)
    + Step(Career, a, yearOf) + Step(Category.Family, a, yearOf) + Step(Goals, a, yearOf)
  }

  /** The categories of `cs` whose field is present, in their order. */
  function Kept(a: Autobiography, cs: seq<Category>): seq<Category> {
    if cs == [] then [] else KeepIf(a, cs[0]) + Kept(a, cs[1..])
  }

  /** A category on its own when its field is present, and nothing otherwise. */
  function KeepIf(a: Autobiography, c: Category): seq<Category> {
    if Source(c, a) != "" then [c] else []
  }

  /** The events of a list of categories, one per category, in the same order. */
  function EventsOf(a: Autobiography, yearOf: string -> ParsedYear, ks: seq<Category>): seq<Event> {
    seq(|ks|, i requires 0 <= i < |ks| => EventFor(ks[i], a, yearOf))
  }

  /** Reference definition: walk a list of categories, keep each whose field is present,
      and build the event of every kept category. */
  function EventsOver(a: Autobiography, yearOf: string -> ParsedYear, cs: seq<Category>): seq<Event> {
    EventsOf(a, yearOf, Kept(a, cs))
  }

  /** Keeping from two lists one after the other is keeping from their concatenation. */
  lemma {:induction false} KeptAppend(a: Autobiography, cs: seq<Category>, ds: seq<Category>)
    ensures Kept(a, cs + ds) == Kept(a, cs) + Kept(a, ds)
    decreases |cs|
  {
    if cs == [] {
      assert cs + ds == ds;
    } else {
      assert (cs + ds)[0] == cs[0] && (cs + ds)[1..] == cs[1..] + ds;
      KeptAppend(a, cs[1..], ds);
    }
  }

  /** Building events distributes over concatenation. */
  lemma EventsOfAppend(a: Autobiography, yearOf: string -> ParsedYear, ks: seq<Category>, ls: seq<Category>)
    ensures EventsOf(a, yearOf, ks + ls) == EventsOf(a, yearOf, ks) + EventsOf(a, yearOf, ls)
  {
    forall i | 0 <= i < |ks + ls|
      ensures EventsOf(a, yearOf, ks + ls)[i] == (EventsOf(a, yearOf, ks) + EventsOf(a, yearOf, ls))[i]
    {
      if i >= |ks| {
        assert (ks + ls)[i] == ls[i - |ks|];
      }
    }
  }

  /** Walking two lists one after the other is walking their concatenation. */
  lemma EventsOverAppend(a: Autobiography, yearOf: string -> ParsedYear, cs: seq<Category>, ds: seq<Category>)
    ensures EventsOver(a, yearOf, cs + ds) == EventsOver(a, yearOf, cs) + EventsOver(a, yearOf, ds)
  {
    KeptAppend(a, cs, ds);
    EventsOfAppend(a, yearOf, Kept(a, cs), Kept(a, ds));
  }

  /** The page's six checks are the walk over the six categories in their order. */
  lemma TimelineIsReference(a: Autobiography, yearOf: string -> ParsedYear)
    ensures Timeline(a, yearOf) == EventsOver(a, yearOf, Categories)
  {
    var k1, k2, k3 := KeepIf(a, Birth), KeepIf(a, Childhood), KeepIf(a, Education);
    var k4, k5, k6 := KeepIf(a, Career), KeepIf(a, Category.Family), KeepIf(a, Goals);
    KeptCategories(a);
    EventsOfAppend(a, yearOf, k1 + k2 + k3 + k4 + k5, k6);
    EventsOfAppend(a, yearOf, k1 + k2 + k3 + k4, k5);
    EventsOfAppend(a, yearOf, k1 + k2 + k3, k4);
    EventsOfAppend(a, yearOf, k1 + k2, k3);
    EventsOfAppend(a, yearOf, k1, k2);
    StepIsKept(a, yearOf, Birth);
    StepIsKept(a, yearOf, Childhood);
    StepIsKept(a, yearOf, Education);
    StepIsKept(a, yearOf, Career);
    StepIsKept(a, yearOf, Category.Family);
    StepIsKept(a, yearOf, Goals);
  }

  /** Keeping from the category list checks the six categories one after the other. */
  lemma KeptCategories(a: Autobiography)
    ensures Kept(a, Categories) == KeepIf(a, Birth) + KeepIf(a, Childhood) + KeepIf(a, Education)
                                   + KeepIf(a, Career) + KeepIf(a, Category.Family) + KeepIf(a, Goals)
  {
    KeptFirstThree(a);
    KeptLastThree(a);
    KeptAppend(a, [Birth, Childhood, Education], [Career, Category.Family, Goals]);
    assert [Birth, Childhood, Education] + [Career, Category.Family, Goals] == Categories;
  }

  lemma KeptFirstThree(a: Autobiography)
    ensures Kept(a, [Birth, Childhood, Education]) == KeepIf(a, Birth) + KeepIf(a, Childhood) + KeepIf(a, Education)
  {
    KeptOne(a, Birth);
    KeptOne(a, Childhood);
    KeptOne(a, Education);
    KeptAppend(a, [Birth], [Childhood]);
    assert [Birth] + [Childhood] == [Birth, Childhood];
    KeptAppend(a, [Birth, Childhood], [Education]);
    assert [Birth, Childhood] + [Education] == [Birth, Childhood, Education];
  }

  lemma KeptLastThree(a: Autobiography)
    ensures Kept(a, [Career, Category.Family, Goals]) == KeepIf(a, Career) + KeepIf(a, Category.Family) + KeepIf(a, Goals)
  {
    KeptOne(a, Career);
    KeptOne(a, Category.Family);
    KeptOne(a, Goals);
    KeptAppend(a, [Career], [Category.Family]);
    assert [Career] + [Category.Family] == [Career, Category.Family];
    KeptAppend(a, [Career, Category.Family], [Goals]);
    assert [Career, Category.Family] + [Goals] == [Career, Category.Family, Goals];
  }

  lemma KeptOne(a: Autobiography, c: Category)
    ensures Kept(a, [c]) == KeepIf(a, c)
  {
    assert [c][1..] == [];
  }

  /** The events of a category kept or dropped on its own are that category's step. */
  lemma StepIsKept(a: Autobiography, yearOf: string -> ParsedYear, c: Category)
    ensures EventsOf(a, yearOf, KeepIf(a, c)) == Step(c, a, yearOf)
  {
  }

  /** Every kept category is listed and has its field present. */
  lemma {:induction false} KeptMembers(a: Autobiography, cs: seq<Category>, i: nat)
    requires i < |Kept(a, cs)|
    ensures Kept(a, cs)[i] in cs && Source(Kept(a, cs)[i], a) != ""
    decreases |cs|
  {
    var head, rest := KeepIf(a, cs[0]), Kept(a, cs[1..]);
    assert Kept(a, cs) == head + rest;
    if i >= |head| {
      KeptMembers(a, cs[1..], i - |head|);
      assert Kept(a, cs)[i] == rest[i - |head|];
    }
  }

  /** Every event of the walk is the event of a listed category whose field is present. */
  lemma EventsOverMembers(a: Autobiography, yearOf: string -> ParsedYear, cs: seq<Category>, i: nat)
    requires i < |EventsOver(a, yearOf, cs)|
    ensures var e := EventsOver(a, yearOf, cs)[i];
            e.category in cs && e == EventFor(e.category, a, yearOf) && Source(e.category, a) != ""
  {
    KeptMembers(a, cs, i);
    assert EventsOver(a, yearOf, cs)[i] == EventFor(Kept(a, cs)[i], a, yearOf);
  }

  /** At most one category is kept per listed category. */
  lemma {:induction false} KeptLength(a: Autobiography, cs: seq<Category>)
    ensures |Kept(a, cs)| <= |cs|
    decreases |cs|
  {
    if cs != [] {
      KeptLength(a, cs[1..]);
    }
  }

  /** The walk keeps at most one event per category. */
  lemma EventsOverLength(a: Autobiography, yearOf: string -> ParsedYear, cs: seq<Category>)
    ensures |EventsOver(a, yearOf, cs)| <= |cs|
  {
    KeptLength(a, cs);
  }

  /** A listed category is kept exactly when its field is present. */
  lemma {:induction false} KeptPresence(a: Autobiography, cs: seq<Category>, c: Category)
    requires c in cs
    ensures c in Kept(a, cs) <==> Source(c, a) != ""
    decreases |cs|
  {
    var rest := Kept(a, cs[1..]);
    assert Kept(a, cs) == KeepIf(a, cs[0]) + rest;
    if c in rest {
      var i :| 0 <= i < |rest| && rest[i] == c;
      KeptMembers(a, cs[1..], i);
    } else if cs[0] != c {
      KeptPresence(a, cs[1..], c);
    }
  }

  /** A listed category's event is in the walk exactly when its field is present. */
  lemma EventsOverPresence(a: Autobiography, yearOf: string -> ParsedYear, cs: seq<Category>, c: Category)
    requires c in cs
    ensures Source(c, a) != "" <==> EventFor(c, a, yearOf) in EventsOver(a, yearOf, cs)
  {
    KeptPresence(a, cs, c);
    EventsOfMembership(a, yearOf, Kept(a, cs), c);
  }

  /** A category's event is among the events of a list exactly when the category is listed. */
  lemma EventsOfMembership(a: Autobiography, yearOf: string -> ParsedYear, ks: seq<Category>, c: Category)
    ensures EventFor(c, a, yearOf) in EventsOf(a, yearOf, ks) <==> c in ks
  {
    var es := EventsOf(a, yearOf, ks);
    if c in ks {
      var k :| 0 <= k < |ks| && ks[k] == c;
      assert es[k] == EventFor(c, a, yearOf);
    }
    if EventFor(c, a, yearOf) in es {
      var i :| 0 <= i < |es| && es[i] == EventFor(c, a, yearOf);
      assert EventFor(ks[i], a, yearOf).category == c;
    }
  }

  /** Categories listed in strictly increasing rank. */
  predicate RankIncreasing(cs: seq<Category>) {
    forall i, j :: 0 <= i < j < |cs| ==> Rank(cs[i]) < Rank(cs[j])
  }

  /** Keeping from a list in rank order leaves a list in rank order. */
  lemma {:induction false} KeptOrdered(a: Autobiography, cs: seq<Category>)
    requires RankIncreasing(cs)
    ensures RankIncreasing(Kept(a, cs))
    decreases |cs|
  {
    if cs != [] {
      var head, rest := KeepIf(a, cs[0]), Kept(a, cs[1..]);
      assert RankIncreasing(cs[1..]) by {
        forall i, j | 0 <= i < j < |cs[1..]|
          ensures Rank(cs[1..][i]) < Rank(cs[1..][j])
        {
          assert cs[1..][i] == cs[i + 1] && cs[1..][j] == cs[j + 1];
        }
      }
      KeptOrdered(a, cs[1..]);
      forall j | 0 <= j < |rest|
        ensures Rank(cs[0]) < Rank(rest[j])
      {
        KeptMembers(a, cs[1..], j);
        var k :| 0 <= k < |cs[1..]| && cs[1..][k] == rest[j];
        assert cs[k + 1] == rest[j];
      }
      assert Kept(a, cs) == head + rest;
      forall i, j | 0 <= i < j < |head + rest|
        ensures Rank((head + rest)[i]) < Rank((head + rest)[j])
      {
        assert (head + rest)[j] == rest[j - |head|];
        if i >= |head| {
          assert (head + rest)[i] == rest[i - |head|];
        }
      }
    }
  }

  /** Events listed in strictly increasing category rank. */
  predicate InRankOrder(es: seq<Event>) {
    forall i, j :: 0 <= i < j < |es| ==> Rank(es[i].category) < Rank(es[j].category)
  }

  /** Categories listed in increasing rank produce events in increasing rank. */
  lemma EventsOverOrdered(a: Autobiography, yearOf: string -> ParsedYear, cs: seq<Category>)
    requires forall i, j :: 0 <= i < j < |cs| ==> Rank(cs[i]) < Rank(cs[j])
    ensures InRankOrder(EventsOver(a, yearOf, cs))
  {
    KeptOrdered(a, cs);
    var ks, es := Kept(a, cs), EventsOver(a, yearOf, cs);
    assert forall i :: 0 <= i < |es| ==> es[i].category == ks[i];
  }

  /** The category list follows the ranks. */
  lemma CategoriesInRankOrder()
    ensures forall i, j :: 0 <= i < j < |Categories| ==> Rank(Categories[i]) < Rank(Categories[j])
  {
    assert forall i :: 0 <= i < |Categories| ==> Rank(Categories[i]) == i;
  }

  /** The timeline holds at most six events, one per category at most. */
  lemma TimelineAtMostSix(a: Autobiography, yearOf: string -> ParsedYear)
    ensures |Timeline(a, yearOf)| <= 6
  {
    TimelineIsReference(a, yearOf);
    EventsOverLength(a, yearOf, Categories);
  }

  /** Events come in the order Birth, Childhood, Education, Career, Family, Goals, so no
      category appears twice. */
  lemma TimelineInCategoryOrder(a: Autobiography, yearOf: string -> ParsedYear)
    ensures InRankOrder(Timeline(a, yearOf))
  {
    TimelineIsReference(a, yearOf);
    CategoriesInRankOrder();
    EventsOverOrdered(a, yearOf, Categories);
  }

  /** A category's event is in the timeline exactly when its field is non-empty, and every
      event is the one its category prescribes. */
  lemma TimelineEvents(a: Autobiography, yearOf: string -> ParsedYear, c: Category)
    ensures Source(c, a) != "" <==> EventFor(c, a, yearOf) in Timeline(a, yearOf)
    ensures forall e :: e in Timeline(a, yearOf) ==> e == EventFor(e.category, a, yearOf) && Source(e.category, a) != ""
  {
    TimelineIsReference(a, yearOf);
    assert c == Categories[Rank(c)];
    EventsOverPresence(a, yearOf, Categories, c);
    TimelineMembers(a, yearOf);
  }

  lemma TimelineMembers(a: Autobiography, yearOf: string -> ParsedYear)
    ensures forall e :: e in Timeline(a, yearOf) ==> e == EventFor(e.category, a, yearOf) && Source(e.category, a) != ""
  {
    TimelineIsReference(a, yearOf);
    var es := EventsOver(a, yearOf, Categories);
    forall i | 0 <= i < |es|
      ensures es[i] == EventFor(es[i].category, a, yearOf) && Source(es[i].category, a) != ""
    {
      EventsOverMembers(a, yearOf, Categories, i);
    }
  }

  /** The timeline is empty exactly when all six source fields are empty. */
  lemma EmptyTimeline(a: Autobiography, yearOf: string -> ParsedYear)
    ensures Timeline(a, yearOf) == [] <==>
            a.personalInfo.dateOfBirth == "" && a.childhoodMemories.significantEvents == ""
            && a.educationJourney.schools == "" && a.careerAchievements.careerPath == ""
            && a.familyRelationships.relationships == "" && a.dreamsBeliefsGoals.futureGoals == ""
  {
    TimelineLength(a, yearOf);
    CountedEmpty(a, Timeline(a, yearOf));
  }

  /** A sequence holding one entry per present source field is empty exactly when no field is. */
  lemma CountedEmpty(a: Autobiography, t: seq<Event>)
    requires |t| == FieldCount(Source(Birth, a)) + FieldCount(Source(Childhood, a)) + FieldCount(Source(Education, a))
                    + FieldCount(Source(Career, a)) + FieldCount(Source(Category.Family, a)) + FieldCount(Source(Goals, a))
    ensures t == [] <==>
            a.personalInfo.dateOfBirth == "" && a.childhoodMemories.significantEvents == ""
            && a.educationJourney.schools == "" && a.careerAchievements.careerPath == ""
            && a.familyRelationships.relationships == "" && a.dreamsBeliefsGoals.futureGoals == ""
  {
    NoneCounted(Source(Birth, a), Source(Childhood, a), Source(Education, a),
                Source(Career, a), Source(Category.Family, a), Source(Goals, a));
  }

  /** Six fields count to zero exactly when all of them are empty. */
  lemma NoneCounted(u: string, v: string, w: string, x: string, y: string, z: string)
    ensures FieldCount(u) + FieldCount(v) + FieldCount(w) + FieldCount(x) + FieldCount(y) + FieldCount(z) == 0
            <==> u == "" && v == "" && w == "" && x == "" && y == "" && z == ""
  {
  }

  /** The timeline holds one event per category whose field is non-empty. */
  lemma TimelineLength(a: Autobiography, yearOf: string -> ParsedYear)
    ensures |Timeline(a, yearOf)| ==
            FieldCount(Source(Birth, a)) + FieldCount(Source(Childhood, a)) + FieldCount(Source(Education, a))
            + FieldCount(Source(Career, a)) + FieldCount(Source(Category.Family, a)) + FieldCount(Source(Goals, a))
  {
    StepLength(a, yearOf, Birth);
    StepLength(a, yearOf, Childhood);
    StepLength(a, yearOf, Education);
    StepLength(a, yearOf, Career);
    StepLength(a, yearOf, Category.Family);
    StepLength(a, yearOf, Goals);
  }

  /** One for a non-empty field, zero for an empty one. */
  function FieldCount(v: string): nat {
    if v == "" then 0 else 1
  }

  /** A category contributes one event when its field is non-empty and none otherwise. */
  lemma StepLength(a: Autobiography, yearOf: string -> ParsedYear, c: Category)
    ensures |Step(c, a, yearOf)| == FieldCount(Source(c, a))
  {
  }

  /** What the timeline says: the birth event tells the birthplace and, when the date parses,
      starts at the birth year; every other event describes its category's field by an
      excerpt of at most 200 characters and an ellipsis. */
  lemma TimelineDescriptions(a: Autobiography, yearOf: string -> ParsedYear)
    ensures forall e :: e in Timeline(a, yearOf) && e.category == Birth ==>
              e.description == "Born in " + a.personalInfo.birthplace
              && e.year == YearText(BirthYear(a, yearOf), 0)
    ensures forall e :: e in Timeline(a, yearOf) && e.category != Birth ==>
              e.description == Excerpt(Source(e.category, a)) && |e.description| <= 203
  {
    TimelineMembers(a, yearOf);
  }

  /** Without a date of birth the counted years start from 2000. */
  lemma DefaultYears(a: Autobiography, yearOf: string -> ParsedYear)
    requires a.personalInfo.dateOfBirth == ""
    ensures EventFor(Childhood, a, yearOf).year == "2005"
    ensures EventFor(Education, a, yearOf).year == "2012"
    ensures EventFor(Career, a, yearOf).year == "2022"
  {
    assert BirthYear(a, yearOf) == Year(2000);
    assert Text.NatToString(20) == "20" && Text.NatToString(201) == "201" && Text.NatToString(202) == "202";
    assert Text.IntToString(2005) == "2005";
    assert Text.IntToString(2012) == "2012";
    assert Text.IntToString(2022) == "2022";
  }

  /** With a parsed birth year `n` the later years are `n + 5`, `n + 12` and `n + 22`, and
      the birth event shows `n` itself; an unparseable date shows "NaN" everywhere. */
  lemma YearsFromBirth(a: Autobiography, yearOf: string -> ParsedYear)
    requires a.personalInfo.dateOfBirth != ""
    ensures yearOf(a.personalInfo.dateOfBirth).Year? ==>
              var n := yearOf(a.personalInfo.dateOfBirth).value;
              && EventFor(Birth, a, yearOf).year == Text.IntToString(n)
              && EventFor(Childhood, a, yearOf).year == Text.IntToString(n + 5)
              && EventFor(Education, a, yearOf).year == Text.IntToString(n + 12)
              && EventFor(Career, a, yearOf).year == Text.IntToString(n + 22)
    ensures yearOf(a.personalInfo.dateOfBirth).NaN? ==>
              forall c :: c in {Birth, Childhood, Education, Career} ==> EventFor(c, a, yearOf).year == "NaN"
  {
  }

  /** The state of the timeline page. */
  class TimelinePage {
    /** How the runtime turns a date string into a year. */
    const yearOf: string -> ParsedYear
    var autobiographies: seq<Autobiography>
    var selectedAuto: string
    var timelineEvents: seq<Event>

    constructor(yearOf: string -> ParsedYear)
      ensures this.yearOf == yearOf
      ensures autobiographies == [] && selectedAuto == "" && timelineEvents == []
    {
      this.yearOf := yearOf;
      autobiographies := [];
      selectedAuto := "";
      timelineEvents := [];
    }

    /** `generateTimeline`: replace the shown events by the record's timeline. */
    method GenerateTimeline(auto: Autobiography)
      modifies this
      ensures timelineEvents == Timeline(auto, yearOf)
      ensures autobiographies == old(autobiographies) && selectedAuto == old(selectedAuto)
    {
      timelineEvents := Timeline(auto, yearOf);
    }

    /** `loadAutobiographies`: `result` is what the query for the user's records returned,
        `None` when it threw. The first record is selected and its timeline shown. */
    method LoadAutobiographies(user: Option<string>, result: Option<seq<Autobiography>>)
      modifies this
      ensures user.None? || result.None? ==> unchanged(this)
      ensures user.Some? && result.Some? ==> autobiographies == result.value
      ensures user.Some? && result.Some? && |result.value| > 0 ==>
                selectedAuto == IdOrEmpty(result.value[0])
                && timelineEvents == Timeline(result.value[0], yearOf)
      ensures user.Some? && result.Some? && |result.value| == 0 ==>
                selectedAuto == old(selectedAuto) && timelineEvents == old(timelineEvents)
    {
      if user.None? || result.None? {
        return;
      }
      var data := result.value;
      autobiographies := data;
      if |data| > 0 {
        selectedAuto := IdOrEmpty(data[0]);
        GenerateTimeline(data[0]);
      }
    }

    /** `handleAutoChange`: the selection always follows the choice; the timeline is
        regenerated only when a loaded record carries that id. */
    method HandleAutoChange(id: string)
      modifies this
      ensures selectedAuto == id && autobiographies == old(autobiographies)
      ensures Find(autobiographies, id).Some? ==>
                timelineEvents == Timeline(Find(autobiographies, id).value, yearOf)
      ensures Find(autobiographies, id).None? ==> timelineEvents == old(timelineEvents)
    {
      selectedAuto := id;
      var auto := Find(autobiographies, id);
      if auto.Some? {
        GenerateTimeline(auto.value);
      }
    }
  }
}
