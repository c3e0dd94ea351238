/** The hospital's donor search (components/HospitalDashboard.tsx): the donors of the
    roster, narrowed by an exact blood type and by a case-insensitive location
    substring. An empty filter string imposes no restriction. */
module HospitalDashboard {
  import opened Types
  import opened Text
  import opened Seqs
  import opened Roster

  /** The blood-type test: none when the filter is empty, else exact equality. */
  predicate MatchesBlood(u: User, bloodType: string) {
    bloodType == "" || u.bloodType == bloodType
  }

  /** The location test: none when the filter is empty, else the donor has a location
      whose lowercase contains the lowercased filter. */
  predicate MatchesLocation(u: User, location: string) {
    location == "" || (u.location.Some? && Contains(Lower(u.location.value), Lower(location)))
  }

  predicate Matches(u: User, bloodType: string, location: string) {
    MatchesBlood(u, bloodType) && MatchesLocation(u, location)
  }

  /** `filteredDonors`: the donors passing both filters. */
  function FilteredDonors(users: seq<User>, bloodType: string, location: string): (r: seq<User>)
    ensures |r| <= |users|
    ensures forall u :: u in r <==> u in users && u.role == Donor && Matches(u, bloodType, location)
  {
    Filter((u: User) => Matches(u, bloodType, location), Donors(users))
  }

  /** The search returns donors only, each passing both filters, in roster order, and
      every donor passing both filters is returned. */
  lemma FilteredDonorsSpec(users: seq<User>, bloodType: string, location: string)
    ensures IsSubsequence(FilteredDonors(users, bloodType, location), users)
    ensures forall u :: u in FilteredDonors(users, bloodType, location) <==>
      u in users && u.role == Donor && MatchesBlood(u, bloodType) && MatchesLocation(u, location)
  {
    var p := (u: User) => Matches(u, bloodType, location);
    var pq := (u: User) => IsDonor(u) && Matches(u, bloodType, location);
    FilterFilter(IsDonor, p, pq, users);
    FilterIsSubsequence(pq, users);
  }

  /** With both filters empty the result is exactly the donors, in roster order. */
  lemma NoFilterListsAllDonors(users: seq<User>)
    ensures FilteredDonors(users, "", "") == Donors(users)
  {
    FilterKeepsAll((u: User) => Matches(u, "", ""), Donors(users));
  }

  /** A non-empty blood-type filter keeps only donors of exactly that type. */
  lemma BloodFilterIsExact(users: seq<User>, bloodType: string, location: string, u: User)
    requires bloodType != ""
    requires u in FilteredDonors(users, bloodType, location)
    ensures u.bloodType == bloodType
  {
  }

  /** A non-empty location filter drops every donor without a location. */
  lemma LocationFilterNeedsLocation(users: seq<User>, bloodType: string, location: string, u: User)
    requires location != ""
    requires u in users && u.location.None?
    ensures u !in FilteredDonors(users, bloodType, location)
  {
  }

  /** Both filters together select the same donors, in the same order, as applying the
      location filter to the blood-type result; the members are those common to the two
      single-filter results. */
  lemma CombinedIsIntersection(users: seq<User>, bloodType: string, location: string)
    ensures FilteredDonors(users, bloodType, location)
      == Filter((u: User) => MatchesLocation(u, location), FilteredDonors(users, bloodType, ""))
    ensures forall u :: u in FilteredDonors(users, bloodType, location) <==>
      u in FilteredDonors(users, bloodType, "") && u in FilteredDonors(users, "", location)
  {
    var donors := Donors(users);
    var byBlood := (u: User) => Matches(u, bloodType, "");
    var byPlace := (u: User) => MatchesLocation(u, location);
    var both := (u: User) => Matches(u, bloodType, location);
    FilterFilter(byBlood, byPlace, both, donors);
  }

  /** The "No donors found" state is shown exactly when no donor passes both filters. */
  predicate ShowsEmptyState(users: seq<User>, bloodType: string, location: string) {
    |FilteredDonors(users, bloodType, location)| == 0
  }

  lemma EmptyStateIffNoMatch(users: seq<User>, bloodType: string, location: string)
    ensures ShowsEmptyState(users, bloodType, location) <==>
      forall i :: 0 <= i < |users| ==> !(IsDonor(users[i]) && Matches(users[i], bloodType, location))
  {
    FilteredDonorsSpec(users, bloodType, location);
    if !ShowsEmptyState(users, bloodType, location) {
      var u := FilteredDonors(users, bloodType, location)[0];
      assert u in FilteredDonors(users, bloodType, location);
      var i :| 0 <= i < |users| && users[i] == u;
    } else {
      forall i | 0 <= i < |users| ensures !(IsDonor(users[i]) && Matches(users[i], bloodType, location)) {
        assert users[i] in users;
      }
    }
  }
}
