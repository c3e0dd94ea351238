/** The donor selection both dashboards start from:
    `users.filter(u => u.role === 'DONOR')`. */
module Roster {
  import opened Types
  import opened Seqs

  predicate IsDonor(u: User) {
    u.role == Donor
  }

  function Donors(users: seq<User>): (r: seq<User>)
    ensures |r| <= |users|
    ensures forall u :: u in r <==> u in users && u.role == Donor
  {
    Filter(IsDonor, users)
  }

  /** Appending an account appends it to the donors exactly when it is a donor. */
  lemma DonorsAppend(users: seq<User>, u: User)
    ensures Donors(users + [u]) == Donors(users) + (if u.role == Donor then [u] else [])
  {
    FilterAppend(IsDonor, users, [u]);
    assert Filter(IsDonor, [u]) == if u.role == Donor then [u] else [];
  }
}
