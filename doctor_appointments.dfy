/** The specialist directory (components/DoctorAppointments.tsx): a list of specialties
    to choose from, a search over doctor and hospital names, and a booking marker. */
module DoctorAppointments {
  import opened Types
  import opened Text
  import opened Seqs

  /** The label of the button that lifts the specialty restriction. */
  const AllSpecialties: string := "All"

  /** `doctors.map(d => d.specialty)`. */
  function SpecialtyColumn(doctors: seq<Doctor>): (col: seq<string>)
    ensures |col| == |doctors|
    ensures forall i :: 0 <= i < |doctors| ==> col[i] == doctors[i].specialty
  {
    seq(|doctors|, i requires 0 <= i < |doctors| => doctors[i].specialty)
  }

  /** `['All', ...Array.from(new Set(doctors.map(d => d.specialty)))]`. */
  function Specialties(doctors: seq<Doctor>): (r: seq<string>)
    ensures |r| >= 1 && r[0] == AllSpecialties
    ensures NoDuplicates(r[1..])
  {
    [AllSpecialties] + Distinct(SpecialtyColumn(doctors))
  }

  /** The specialty buttons: "All" first, then every specialty some doctor has, each
      once, in the order in which the specialties first occur among the doctors. */
  lemma SpecialtiesSpec(doctors: seq<Doctor>)
    ensures Specialties(doctors)[0] == AllSpecialties
    ensures forall s :: s in Specialties(doctors)[1..] <==> exists i :: 0 <= i < |doctors| && doctors[i].specialty == s
    ensures NoDuplicates(Specialties(doctors)[1..])
    ensures forall i, j :: 1 <= i < j < |Specialties(doctors)| ==>
      FirstIndex(SpecialtyColumn(doctors), Specialties(doctors)[i]) < FirstIndex(SpecialtyColumn(doctors), Specialties(doctors)[j])
  {
    var col := SpecialtyColumn(doctors);
    var r := Specialties(doctors);
    assert r[1..] == Distinct(col);
    DistinctFirstOccurrenceOrder(col);
    forall s ensures s in r[1..] <==> exists i :: 0 <= i < |doctors| && doctors[i].specialty == s {
      if s in col {
        var i :| 0 <= i < |col| && col[i] == s;
        assert doctors[i].specialty == s;
      }
      if exists i :: 0 <= i < |doctors| && doctors[i].specialty == s {
        var i :| 0 <= i < |doctors| && doctors[i].specialty == s;
        assert col[i] == s;
      }
    }
    forall i, j | 1 <= i < j < |r|
      ensures FirstIndex(col, r[i]) < FirstIndex(col, r[j])
    {
      assert r[i] == Distinct(col)[i - 1] && r[j] == Distinct(col)[j - 1];
    }
  }

  /** The search: the lowercased doctor name or hospital name contains the lowercased term. */
  predicate MatchesSearch(d: Doctor, term: string) {
    Contains(Lower(d.name), Lower(term)) || Contains(Lower(d.hospital), Lower(term))
  }

  /** The specialty selection: "All" lets everyone through, any other exactly its own. */
  predicate MatchesSpecialty(d: Doctor, selected: string) {
    selected == AllSpecialties || d.specialty == selected
  }

  /** `filteredDoctors`: the doctors passing both the search and the selection. */
  function FilteredDoctors(doctors: seq<Doctor>, term: string, selected: string): (r: seq<Doctor>)
    ensures |r| <= |doctors|
    ensures forall d :: d in r <==> d in doctors && MatchesSearch(d, term) && MatchesSpecialty(d, selected)
  {
    Filter((d: Doctor) => MatchesSearch(d, term) && MatchesSpecialty(d, selected), doctors)
  }

  /** The listing keeps the directory's order, and shows a doctor iff it passes both the
      search and the specialty selection. */
  lemma FilteredDoctorsSpec(doctors: seq<Doctor>, term: string, selected: string)
    ensures IsSubsequence(FilteredDoctors(doctors, term, selected), doctors)
    ensures forall d :: d in FilteredDoctors(doctors, term, selected) <==>
      d in doctors && MatchesSearch(d, term) && MatchesSpecialty(d, selected)
  {
    FilterIsSubsequence((d: Doctor) => MatchesSearch(d, term) && MatchesSpecialty(d, selected), doctors);
  }

  /** The two tests compose: the listing is the specialty selection applied to the
      search result. */
  lemma SearchThenSpecialty(doctors: seq<Doctor>, term: string, selected: string)
    ensures FilteredDoctors(doctors, term, selected)
      == Filter((d: Doctor) => MatchesSpecialty(d, selected), Filter((d: Doctor) => MatchesSearch(d, term), doctors))
  {
    FilterFilter((d: Doctor) => MatchesSearch(d, term), (d: Doctor) => MatchesSpecialty(d, selected),
      (d: Doctor) => MatchesSearch(d, term) && MatchesSpecialty(d, selected), doctors);
  }

  /** Selecting "All" leaves exactly the search result. */
  lemma AllImposesNoRestriction(doctors: seq<Doctor>, term: string)
    ensures FilteredDoctors(doctors, term, AllSpecialties) == Filter((d: Doctor) => MatchesSearch(d, term), doctors)
  {
    FilterSamePredicate((d: Doctor) => MatchesSearch(d, term) && MatchesSpecialty(d, AllSpecialties),
      (d: Doctor) => MatchesSearch(d, term), doctors);
  }

  /** Any other selection shows only doctors of exactly that specialty. */
  lemma SelectionIsExact(doctors: seq<Doctor>, term: string, selected: string, d: Doctor)
    requires selected != AllSpecialties
    requires d in FilteredDoctors(doctors, term, selected)
    ensures d.specialty == selected
  {
  }

  /** The empty search term matches every doctor. */
  lemma EmptyTermMatches(d: Doctor)
    ensures MatchesSearch(d, "")
  {
    assert Lower("") == "";
    ContainsEmpty(Lower(d.name));
  }

  /** With an empty search and "All" selected the whole directory is listed, in order. */
  lemma UnfilteredListsAll(doctors: seq<Doctor>)
    ensures FilteredDoctors(doctors, "", AllSpecialties) == doctors
  {
    forall i | 0 <= i < |doctors| ensures MatchesSearch(doctors[i], "") {
      EmptyTermMatches(doctors[i]);
    }
    FilterKeepsAll((d: Doctor) => MatchesSearch(d, "") && MatchesSpecialty(d, AllSpecialties), doctors);
  }

  /** The directory's state: the search box, the selected specialty and the booked id. */
  class Booking {
    var searchTerm: string
    var selectedSpecialty: string
    var bookedDoctor: Option<string>

    constructor ()
      ensures searchTerm == "" && selectedSpecialty == AllSpecialties && bookedDoctor == None
    {
      searchTerm := "";
      selectedSpecialty := AllSpecialties;
      bookedDoctor := None;
    }

    /** The doctors listed for the current search and selection. */
    function Visible(doctors: seq<Doctor>): seq<Doctor>
      reads this
    {
      FilteredDoctors(doctors, searchTerm, selectedSpecialty)
    }

    /** A doctor's card shows "Confirmed" instead of the booking button. */
    predicate ShowsConfirmed(d: Doctor)
      reads this
    {
      bookedDoctor == Some(d.id)
    }

    method SetSearchTerm(term: string)
      modifies this`searchTerm
      ensures searchTerm == term
    {
      searchTerm := term;
    }

    method SelectSpecialty(specialty: string)
      modifies this`selectedSpecialty
      ensures selectedSpecialty == specialty
    {
      selectedSpecialty := specialty;
    }

    /** `handleBook`: exactly the doctors with the booked id show "Confirmed"; the search
        and selection are untouched. */
    method HandleBook(id: string)
      modifies this`bookedDoctor
      ensures bookedDoctor == Some(id)
      ensures forall d :: ShowsConfirmed(d) <==> d.id == id
    {
      bookedDoctor := Some(id);
    }
  }
}
