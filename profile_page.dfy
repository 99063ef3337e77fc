/**
 * The profile page's reputation (src/pages/ProfilePage.jsx): ten points
 * per vote over the signed-in user's reports, where a vote field that is
 * not a number counts for nothing.
 */
module ProfilePage {
  import opened Wrappers
  import opened Seqs
  import opened App

  /** The sum of the numeric vote fields, read left to right. */
  function VoteSum(votes: seq<VoteField>): int {
    if votes == [] then 0 else VoteSum(votes[..|votes| - 1]) + NumericOr0(votes[|votes| - 1])
  }

  /** `totalVotes * 10`. */
  function Reputation(votes: seq<VoteField>): int {
    10 * VoteSum(votes)
  }

  predicate IsNumber(v: VoteField) {
    v.Number?
  }

  /** The `forEach` over the snapshot: `totalVotes += typeof v === 'number' ? v : 0`. */
  method TotalVotes(votes: seq<VoteField>) returns (total: int)
    ensures total == VoteSum(votes)
  {
    total := 0;
    var i := 0;
    while i < |votes|
      invariant 0 <= i <= |votes|
      invariant total == VoteSum(votes[..i])
    {
      assert votes[..i + 1][..i] == votes[..i];
      total := total + NumericOr0(votes[i]);
      i := i + 1;
    }
    assert votes[..|votes|] == votes;
  }

  /** Sums split over concatenation. */
  lemma {:induction false} VoteSumAppend(a: seq<VoteField>, b: seq<VoteField>)
    ensures VoteSum(a + b) == VoteSum(a) + VoteSum(b)
    decreases |b|
  {
    if b != [] {
      var b' := b[..|b| - 1];
      assert (a + b)[..|a + b| - 1] == a + b';
      assert (a + b)[|a + b| - 1] == b[|b| - 1];
      VoteSumAppend(a, b');
    } else {
      assert a + b == a;
    }
  }

  /** Fields that are not numbers change nothing: the sum is that of the numeric fields alone. */
  lemma {:induction false} NonNumbersIgnored(votes: seq<VoteField>)
    ensures VoteSum(votes) == VoteSum(Filter(votes, IsNumber))
  {
    if votes != [] {
      var init := votes[..|votes| - 1];
      var last := votes[|votes| - 1];
      assert votes == init + [last];
      NonNumbersIgnored(init);
      FilterAppend(init, [last], IsNumber);
      assert Filter([last], IsNumber) == if IsNumber(last) then [last] else [] by {
        assert [last][1..] == [];
      }
      VoteSumAppend(Filter(init, IsNumber), Filter([last], IsNumber));
      assert VoteSum([last]) == NumericOr0(last) by {
        assert [last][..0] == [];
      }
    }
  }

  /**
   * The reputation is always a multiple of ten, never negative when no vote
   * is, and 0 for a user with no reports.
   */
  lemma {:induction false} ReputationBounds(votes: seq<VoteField>)
    ensures Reputation(votes) % 10 == 0
    ensures votes == [] ==> Reputation(votes) == 0
    ensures (forall v :: v in votes && v.Number? ==> v.n >= 0) ==> Reputation(votes) >= 0
  {
    if votes != [] {
      var init := votes[..|votes| - 1];
      assert forall v :: v in init ==> v in votes;
      ReputationBounds(init);
    }
  }

  /** The page's `reputation` state. */
  class Profile {
    var reputation: int

    /** `useState(0)`. */
    constructor ()
      ensures reputation == 0
    {
      reputation := 0;
    }

    /**
     * The effect and one snapshot of the user's reports: without a user
     * nothing is subscribed and the reputation stays; otherwise it becomes
     * ten times the vote total.
     */
    method Refresh(user: Option<User>, votes: seq<VoteField>)
      modifies this
      ensures user.None? ==> reputation == old(reputation)
      ensures user.Some? ==> reputation == Reputation(votes)
    {
      if user.None? {
        return;
      }
      var total := TotalVotes(votes);
      reputation := total * 10;
    }
  }
}
