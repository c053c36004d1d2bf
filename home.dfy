/**
 * The home page's venue search (src/pages/Home.tsx): a text search over name and
 * location, a category selector with the sentinel "All", and a minimum capacity
 * typed as text and read with `parseInt`; all three combine with AND.
 */
module Home {
  import opened Wrappers
  import opened Text
  import opened Seqs

  /** A catalog card (the image URL is presentation and is left out). */
  datatype Venue = Venue(
    id: string,
    name: string,
    location: string,
    capacity: int,
    features: seq<string>,
    category: string)

  const MockVenues: seq<Venue> := [
    Venue("1", "Main Auditorium", "Central Campus", 500, ["Stage", "Sound System", "Projector"], "Auditorium"),
    Venue("2", "Conference Room A", "Business Building", 50, ["Whiteboard", "Video Conferencing", "Coffee Machine"], "Conference Room"),
    Venue("3", "Sports Hall", "Sports Complex", 200, ["Basketball Court", "Locker Rooms", "Scoreboard"], "Sports Venue"),
    Venue("4", "Study Room 101", "Library", 15, ["Quiet Space", "Power Outlets", "Wi-Fi"], "Study Space"),
    Venue("5", "Computer Lab", "Technology Building", 40, ["High-end Computers", "Software Development Tools", "Dual Monitors"], "Lab"),
    Venue("6", "Outdoor Amphitheater", "Arts Quad", 300, ["Open Air", "Stage", "Natural Acoustics"], "Outdoor Space")
  ]

  /** The choices the category selector offers. */
  const Categories: seq<string> :=
    ["All", "Auditorium", "Conference Room", "Sports Venue", "Study Space", "Lab", "Outdoor Space"]

  /** The three pieces of filter state the page keeps. */
  datatype Filters = Filters(searchQuery: string, selectedCategory: string, capacityFilter: string)

  /** The state the page starts in. */
  const InitialFilters: Filters := Filters("", "All", "")

  predicate MatchesSearch(v: Venue, query: string)
  {
    MatchesQuery(v.name, query) || MatchesQuery(v.location, query)
  }

  predicate MatchesCategory(v: Venue, category: string)
  {
    category == "All" || v.category == category
  }

  /** `!capacityFilter || (capacityNumber > 0 && venue.capacity >= capacityNumber)`;
      a `NaN` compares false with everything. */
  predicate MatchesCapacity(v: Venue, capacityFilter: string)
    ensures capacityFilter == "" ==> MatchesCapacity(v, capacityFilter)
    ensures capacityFilter != "" && (ParseInt(capacityFilter).None? || ParseInt(capacityFilter).value <= 0) ==>
      !MatchesCapacity(v, capacityFilter)
    ensures capacityFilter != "" && ParseInt(capacityFilter).Some? && ParseInt(capacityFilter).value > 0 ==>
      (MatchesCapacity(v, capacityFilter) <==> v.capacity >= ParseInt(capacityFilter).value)
  {
    capacityFilter == ""
    || (var n := ParseInt(capacityFilter); n.Some? && n.value > 0 && v.capacity >= n.value)
  }

  predicate VenuePasses(v: Venue, f: Filters)
  {
    MatchesSearch(v, f.searchQuery)
    && MatchesCategory(v, f.selectedCategory)
    && MatchesCapacity(v, f.capacityFilter)
  }

  /** `filteredVenues`: exactly the venues passing all three tests, in catalog order. */
  function FilteredVenues(venues: seq<Venue>, f: Filters): (r: seq<Venue>)
    ensures |r| <= |venues|
    ensures forall v :: v in r <==> v in venues && VenuePasses(v, f)
    ensures forall v :: multiset(r)[v] == if VenuePasses(v, f) then multiset(venues)[v] else 0
    ensures IsSubsequence(r, venues)
  {
    FilterSpec(venues, v => VenuePasses(v, f));
    Filter(venues, v => VenuePasses(v, f))
  }

  /** Reset Filters: puts back the initial state, which lists every venue. */
  function ResetFilters(f: Filters): (r: Filters)
    ensures r.searchQuery == "" && r.selectedCategory == "All" && r.capacityFilter == ""
    ensures forall venues :: FilteredVenues(venues, r) == venues
  {
    assert forall venues :: FilteredVenues(venues, InitialFilters) == venues by {
      forall venues ensures FilteredVenues(venues, InitialFilters) == venues {
        InitialFiltersShowAll(venues);
      }
    }
    InitialFilters
  }

  /** With the initial state (empty search, "All", no capacity) the whole list is shown, in order. */
  lemma InitialFiltersShowAll(venues: seq<Venue>)
    ensures FilteredVenues(venues, InitialFilters) == venues
  {
    forall v | v in venues ensures VenuePasses(v, InitialFilters) {
      EmptyQueryMatches(v.name);
    }
    FilterKeepsAll(venues, v => VenuePasses(v, InitialFilters));
  }

  /** An empty search matches every venue, so only category and capacity decide. */
  lemma EmptySearchIgnored(venues: seq<Venue>, f: Filters)
    requires f.searchQuery == ""
    ensures FilteredVenues(venues, f)
         == Filter(venues, v => MatchesCategory(v, f.selectedCategory) && MatchesCapacity(v, f.capacityFilter))
  {
    forall v | v in venues ensures MatchesSearch(v, f.searchQuery) {
      EmptyQueryMatches(v.name);
    }
    FilterCongruent(venues, v => VenuePasses(v, f),
      v => MatchesCategory(v, f.selectedCategory) && MatchesCapacity(v, f.capacityFilter));
  }

  /** Category "All" matches every venue, so only search and capacity decide. */
  lemma AllCategoryIgnored(venues: seq<Venue>, f: Filters)
    requires f.selectedCategory == "All"
    ensures FilteredVenues(venues, f)
         == Filter(venues, v => MatchesSearch(v, f.searchQuery) && MatchesCapacity(v, f.capacityFilter))
  {
    FilterCongruent(venues, v => VenuePasses(v, f),
      v => MatchesSearch(v, f.searchQuery) && MatchesCapacity(v, f.capacityFilter));
  }

  /** Any other category keeps only venues of exactly that category. */
  lemma OtherCategoryIsExact(venues: seq<Venue>, f: Filters, v: Venue)
    requires f.selectedCategory != "All"
    requires v in FilteredVenues(venues, f)
    ensures v.category == f.selectedCategory
  {
  }

  /** An empty capacity box imposes no constraint. */
  lemma EmptyCapacityIgnored(venues: seq<Venue>, f: Filters)
    requires f.capacityFilter == ""
    ensures FilteredVenues(venues, f)
         == Filter(venues, v => MatchesSearch(v, f.searchQuery) && MatchesCategory(v, f.selectedCategory))
  {
    FilterCongruent(venues, v => VenuePasses(v, f),
      v => MatchesSearch(v, f.searchQuery) && MatchesCategory(v, f.selectedCategory));
  }

  /** A non-empty capacity text that is not a number, or reads as zero or less, hides every venue. */
  lemma BadCapacityHidesAll(venues: seq<Venue>, f: Filters)
    requires f.capacityFilter != ""
    requires ParseInt(f.capacityFilter).None? || ParseInt(f.capacityFilter).value <= 0
    ensures FilteredVenues(venues, f) == []
  {
    FilterKeepsNone(venues, v => VenuePasses(v, f));
  }

  /** A typed positive number `n` keeps exactly the venues holding at least `n` people
      (among those that pass search and category). */
  lemma CapacityThreshold(venues: seq<Venue>, f: Filters, n: nat, v: Venue)
    requires n > 0 && f.capacityFilter == Decimal(n)
    ensures v in FilteredVenues(venues, f) <==>
      v in venues && MatchesSearch(v, f.searchQuery) && MatchesCategory(v, f.selectedCategory) && v.capacity >= n
  {
    ParseIntDecimal(n, "");
    assert Decimal(n) + "" == Decimal(n);
  }

  /** The selector offers "All" and then exactly the catalog's categories: each venue's
      category is offered, and each offered category holds a venue. */
  lemma CategoriesMatchCatalog()
    ensures Categories[0] == "All"
    ensures forall v :: v in MockVenues ==> v.category in Categories[1..]
    ensures forall c :: c in Categories[1..] ==> exists v :: v in MockVenues && v.category == c
  {
    forall i | 0 <= i < |MockVenues| ensures MockVenues[i].category == Categories[1..][i] { }
  }
}
