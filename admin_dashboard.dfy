/** The administrator's overview (components/AdminDashboard.tsx): the number of
    accounts, the number of donors, and the donation and lives-saved totals summed
    over donors only. */
module AdminDashboard {
  import opened Types
  import opened Seqs
  import opened Roster

  /** The four stat cards. */
  datatype Overview = Overview(totalUsers: nat, totalDonors: nat, totalDonations: nat, livesImpacted: nat)

  function Donations(u: User): nat { u.totalDonations }

  function LivesSaved(u: User): nat { u.livesSaved }

  /** `donors.reduce((acc, curr) => acc + curr.totalDonations, 0)`. */
  function TotalDonations(users: seq<User>): (total: nat)
    ensures total == SumOf(DonorsOnly(Donations), users)
  {
    TotalIgnoresNonDonors(Donations, users);
    SumOf(Donations, Donors(users))
  }

  /** `donors.reduce((acc, curr) => acc + curr.livesSaved, 0)`. */
  function TotalLivesSaved(users: seq<User>): (total: nat)
    ensures total == SumOf(DonorsOnly(LivesSaved), users)
  {
    TotalIgnoresNonDonors(LivesSaved, users);
    SumOf(LivesSaved, Donors(users))
  }

  /** The dashboard's figures for a roster. */
  function Stats(users: seq<User>): (o: Overview)
    ensures o.totalUsers == |users|
    ensures o.totalDonors <= o.totalUsers
  {
    Overview(|users|, |Donors(users)|, TotalDonations(users), TotalLivesSaved(users))
  }

  /** A counter that counts only donors' contributions. */
  function DonorsOnly(f: User -> nat): User -> nat {
    (u: User) => if u.role == Donor then f(u) else 0
  }

  /** Independent statement of the two totals: a sum over the whole roster in which
      administrators and hospitals contribute nothing. */
  lemma {:induction false} TotalIgnoresNonDonors(f: User -> nat, users: seq<User>)
    ensures SumOf(f, Donors(users)) == SumOf(DonorsOnly(f), users)
    decreases |users|
  {
    if users != [] {
      var front := users[..|users| - 1];
      var last := users[|users| - 1];
      assert users == front + [last];
      DonorsAppend(front, last);
      TotalIgnoresNonDonors(f, front);
      SumOfAppend(f, Donors(front), if last.role == Donor then [last] else []);
      if last.role != Donor {
        assert Donors(front) + [] == Donors(front);
      }
    }
  }

  /** Appending an administrator or hospital leaves the counts of donors and both totals
      unchanged; appending a donor adds one donor and exactly its own figures. */
  lemma AppendUpdatesStats(users: seq<User>, u: User)
    ensures Stats(users + [u]).totalUsers == Stats(users).totalUsers + 1
    ensures u.role != Donor ==>
      && Stats(users + [u]).totalDonors == Stats(users).totalDonors
      && Stats(users + [u]).totalDonations == Stats(users).totalDonations
      && Stats(users + [u]).livesImpacted == Stats(users).livesImpacted
    ensures u.role == Donor ==>
      && Stats(users + [u]).totalDonors == Stats(users).totalDonors + 1
      && Stats(users + [u]).totalDonations == Stats(users).totalDonations + u.totalDonations
      && Stats(users + [u]).livesImpacted == Stats(users).livesImpacted + u.livesSaved
  {
    DonorsAppend(users, u);
    var d := Donors(users);
    if u.role == Donor {
      assert Donors(users + [u]) == d + [u];
      assert (d + [u])[..|d + [u]| - 1] == d;
    } else {
      assert Donors(users + [u]) == d;
    }
  }
}
