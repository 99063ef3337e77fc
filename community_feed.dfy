/**
 * The community feed (src/pages/CommunityFeed.jsx): verified reports
 * ranked by votes, relative ages, the demo-mode vote counter and the
 * per-report comments toggle.
 */
module CommunityFeed {
  import opened Wrappers
  import opened Text
  import opened Seqs

  /** `createdAt`: a `Date`, a number of milliseconds, or anything else. */
  datatype Timestamp = DateTs(ms: int) | NumberTs(millis: int) | OtherTs

  /** A relative age, by unit. */
  datatype Age = Seconds(n: int) | Minutes(n: int) | Hours(n: int) | Days(n: int)

  /** `base`: the instant the timestamp stands for; anything else is now. */
  function BaseOf(ts: Timestamp, now: int): int {
    match ts
    case DateTs(ms) => ms
    case NumberTs(ms) => ms
    case OtherTs => now
  }

  /** `Math.floor((Date.now() - base) / 1000)`. */
  function DiffSeconds(ts: Timestamp, now: int): int {
    (now - BaseOf(ts, now)) / 1000
  }

  /** The bucketing of `timeAgo`: seconds below a minute, then minutes, hours, days, each a floor. */
  function AgeOf(ts: Timestamp, now: int): (a: Age)
    ensures var diff := DiffSeconds(ts, now);
      && (diff < 60 <==> a.Seconds?)
      && (a.Seconds? ==> a.n == diff)
      && (60 <= diff < 3600 <==> a.Minutes?)
      && (a.Minutes? ==> a.n == diff / 60 && 1 <= a.n < 60)
      && (3600 <= diff < 86400 <==> a.Hours?)
      && (a.Hours? ==> a.n == diff / 3600 && 1 <= a.n < 24)
      && (86400 <= diff <==> a.Days?)
      && (a.Days? ==> a.n == diff / 86400 && a.n >= 1)
  {
    var diff := DiffSeconds(ts, now);
    if diff < 60 then Seconds(diff)
    else
      var m := diff / 60;
      if m < 60 then Minutes(m)
      else
        var h := m / 60;
        FloorTwice(diff);
        if h < 24 then Hours(h)
        else Days(h / 24)
  }

  /** Flooring by 60 and again by 60 is flooring by 3600; then by 24, by 86400. */
  lemma FloorTwice(diff: int)
    requires diff >= 0
    ensures diff / 60 / 60 == diff / 3600
    ensures diff / 60 / 60 / 24 == diff / 86400
  {
    var m := diff / 60;
    var h := m / 60;
    assert diff == 60 * m + diff % 60;
    assert m == 60 * h + m % 60;
    assert diff == 3600 * h + (60 * (m % 60) + diff % 60);
    var d := h / 24;
    assert h == 24 * d + h % 24;
    assert diff == 86400 * d + (3600 * (h % 24) + 60 * (m % 60) + diff % 60);
  }

  /** `${n}s ago` and the like. */
  function Render(a: Age): string {
    match a
    case Seconds(n) => IntToString(n) + "s ago"
    case Minutes(n) => IntToString(n) + "m ago"
    case Hours(n) => IntToString(n) + "h ago"
    case Days(n) => IntToString(n) + "d ago"
  }

  /** `timeAgo(ts)` at clock `now` (milliseconds). */
  function TimeAgo(ts: Timestamp, now: int): string {
    Render(AgeOf(ts, now))
  }

  /** A timestamp that is neither a date nor a number reads as just now. */
  lemma UnknownTimestampIsNow(now: int)
    ensures TimeAgo(OtherTs, now) == "0s ago"
  {
    assert DiffSeconds(OtherTs, now) == 0;
    assert IntToString(0) == "0";
  }

  /** The three demo reports read "3d ago", "20h ago" and "5h ago". */
  lemma DemoAges(now: int)
    ensures Map(DemoItems(now), (it: Item) => TimeAgo(it.createdAt, now)) == ["3d ago", "20h ago", "5h ago"]
  {
    var d := DemoItems(now);
    assert DiffSeconds(d[0].createdAt, now) == 259200;
    assert DiffSeconds(d[1].createdAt, now) == 72000;
    assert DiffSeconds(d[2].createdAt, now) == 18000;
    FloorTwice(259200);
    FloorTwice(72000);
    FloorTwice(18000);
    assert AgeOf(d[0].createdAt, now) == Days(3);
    assert AgeOf(d[1].createdAt, now) == Hours(20);
    assert AgeOf(d[2].createdAt, now) == Hours(5);
    assert IntToString(3) == "3" && IntToString(5) == "5";
    assert IntToString(20) == "20" by {
      assert NatToString(20) == NatToString(2) + [DigitChar(0)];
    }
    var ages := Map(d, (it: Item) => TimeAgo(it.createdAt, now));
    assert ages[0] == "3d ago" && ages[1] == "20h ago" && ages[2] == "5h ago";
  }

  /** A report card. `votes` is `None` when the report has none. */
  datatype Item = Item(id: string, title: string, location: string, imageUrl: string, votes: Option<int>, createdAt: Timestamp)

  /** `item.votes || 0`. */
  function VotesOr0(it: Item): int {
    it.votes.GetOr(0)
  }

  function VoteKey(it: Item): real {
    VotesOr0(it) as real
  }

  /** `list.sort((a, b) => (b.votes || 0) - (a.votes || 0))`, a stable sort. */
  function RankByVotes(list: seq<Item>): (r: seq<Item>)
    ensures multiset(r) == multiset(list)
    ensures forall i, j :: 0 <= i < j < |r| ==> VotesOr0(r[i]) >= VotesOr0(r[j])
  {
    var r := SortDesc(list, VoteKey);
    assert forall i, j :: 0 <= i < j < |r| ==> VoteKey(r[i]) >= VoteKey(r[j]);
    r
  }

  /** A verified report as the store returns it; `createdAt` in milliseconds when present. */
  datatype Doc = Doc(id: string, title: string, location: string, imageUrl: string, votes: Option<int>, createdAt: Option<int>)

  /** The snapshot's `map`: missing votes become 0, a missing date becomes now; the other fields are copied. */
  function FromDocs(docs: seq<Doc>, now: int): (r: seq<Item>)
    ensures |r| == |docs|
    ensures forall i :: 0 <= i < |docs| ==>
              && r[i].id == docs[i].id && r[i].title == docs[i].title && r[i].location == docs[i].location
              && r[i].imageUrl == docs[i].imageUrl
              && r[i].votes == Some(docs[i].votes.GetOr(0))
              && r[i].createdAt == DateTs(docs[i].createdAt.GetOr(now))
  {
    seq(|docs|, i requires 0 <= i < |docs| =>
      Item(docs[i].id, docs[i].title, docs[i].location, docs[i].imageUrl, Some(docs[i].votes.GetOr(0)), DateTs(docs[i].createdAt.GetOr(now))))
  }

  /** The three demo reports, created 3 days, 20 hours and 5 hours before `now`. */
  function DemoItems(now: int): seq<Item> {
    [Item("demo-1", Demo1Title, Demo1Location, Demo1Image, Some(42), NumberTs(now - 1000 * 60 * 60 * 24 * 3)),
     Item("demo-2", Demo2Title, Demo2Location, Demo2Image, Some(19), NumberTs(now - 1000 * 60 * 60 * 20)),
     Item("demo-3", Demo3Title, Demo3Location, Demo3Image, Some(7), NumberTs(now - 1000 * 60 * 60 * 5))]
  }

  const Demo1Title := "Ghost Dike Project on Roxas Ave"
  const Demo1Location := "Barangay San Isidro"
  const Demo1Image := "https://images.unsplash.com/photo-1482192596544-9eb780fc7f66?q=80&w=1200&auto=format&fit=crop"
  const Demo2Title := "Drainage promised, still flooding every week"
  const Demo2Location := "Barangay Mabini"
  const Demo2Image := "https://images.unsplash.com/photo-1528419364575-4c1ee429e4b3?q=80&w=1200&auto=format&fit=crop"
  const Demo3Title := "Contractor left site, zero progress"
  const Demo3Location := "Barangay Sta. Lucia"
  const Demo3Image := "https://images.unsplash.com/photo-1469474968028-56623f02e42e?q=80&w=1200&auto=format&fit=crop"

  /** `(demoVotes[id] || 0) + 1`. */
  function NextCount(counter: map<string, int>, id: string): int {
    (if id in counter then counter[id] else 0) + 1
  }

  /** `prev.map(it => it.id === id ? { ...it, votes } : it)`. */
  function SetVotes(items: seq<Item>, id: string, votes: int): (r: seq<Item>)
    ensures |r| == |items|
    ensures forall i :: 0 <= i < |items| ==> r[i] == if items[i].id == id then items[i].(votes := Some(votes)) else items[i]
  {
    seq(|items|, i requires 0 <= i < |items| => if items[i].id == id then items[i].(votes := Some(votes)) else items[i])
  }

  /** Setting votes keeps every card in its place with its id, and touches only the cards with that id. */
  lemma SetVotesKeepsCards(items: seq<Item>, id: string, votes: int)
    ensures forall i :: 0 <= i < |items| ==> SetVotes(items, id, votes)[i].id == items[i].id
    ensures forall i :: 0 <= i < |items| && items[i].id == id ==> VotesOr0(SetVotes(items, id, votes)[i]) == votes
    ensures forall i :: 0 <= i < |items| && items[i].id != id ==> SetVotes(items, id, votes)[i] == items[i]
  {
  }

  /**
   * What the demo upvote shows is the local counter, not the report's own
   * count plus one: a report shown with 42 votes and no local upvotes yet
   * drops to 1.
   */
  lemma DemoUpvoteDropsVotes(now: int)
    ensures var shown := SetVotes(DemoItems(now), "demo-1", NextCount(map[], "demo-1"));
      VotesOr0(DemoItems(now)[0]) == 42 && VotesOr0(shown[0]) == 1
  {
  }

  /** The evidently intended upvote: the report's own count goes up by one. */
  function AddVote(items: seq<Item>, id: string): (r: seq<Item>)
    ensures |r| == |items|
    ensures forall i :: 0 <= i < |items| ==> r[i].id == items[i].id
    ensures forall i :: 0 <= i < |items| ==>
              VotesOr0(r[i]) == VotesOr0(items[i]) + (if items[i].id == id then 1 else 0)
  {
    seq(|items|, i requires 0 <= i < |items| =>
      if items[i].id == id then items[i].(votes := Some(VotesOr0(items[i]) + 1)) else items[i])
  }

  /** With the intended upvote, no report ever loses votes. */
  lemma AddVoteNeverLowers(items: seq<Item>, id: string)
    ensures forall i :: 0 <= i < |items| ==> VotesOr0(AddVote(items, id)[i]) > VotesOr0(items[i]) || AddVote(items, id)[i] == items[i]
  {
  }

  datatype Mode = Demo | Store

  /** The feed screen's state. */
  class Feed {
    var items: seq<Item>
    var loading: bool
    var mode: Mode
    /** `demoVotes`: the locally kept upvote count per report id. */
    var demoVotes: map<string, int>
    /** `openComments`: whether each report's comments are shown. */
    var openComments: map<string, bool>

    /** A new screen: no items, loading, in demo mode, with the stored counter. */
    constructor (stored: map<string, int>)
      ensures items == [] && loading && mode == Demo && demoVotes == stored && openComments == map[]
    {
      items := [];
      loading := true;
      mode := Demo;
      demoVotes := stored;
      openComments := map[];
    }

    /** Without a data store (or when it fails): the demo reports, ranked by votes. */
    method ShowDemo(now: int)
      modifies this
      ensures mode == Demo && !loading && items == RankByVotes(DemoItems(now))
      ensures demoVotes == old(demoVotes) && openComments == old(openComments)
    {
      Show(Demo, DemoItems(now));
    }

    /** A snapshot of verified reports from the store, ranked by votes. */
    method ShowSnapshot(docs: seq<Doc>, now: int)
      modifies this
      ensures mode == Store && !loading && items == RankByVotes(FromDocs(docs, now))
      ensures demoVotes == old(demoVotes) && openComments == old(openComments)
    {
      Show(Store, FromDocs(docs, now));
    }

    /** `setMode`, then `setItems` with the list sorted by votes, then `setLoading(false)`. */
    method Show(m: Mode, list: seq<Item>)
      modifies this
      ensures mode == m && !loading && items == RankByVotes(list)
      ensures demoVotes == old(demoVotes) && openComments == old(openComments)
    {
      mode := m;
      items := RankByVotes(list);
      loading := false;
    }

    /**
     * `upvote(id)`. In demo mode the counter for `id` goes up by one and
     * every card with that id shows the counter; the cards stay in their
     * order. Otherwise the vote goes to the store and nothing local changes.
     */
    method Upvote(id: string)
      modifies this
      ensures mode == old(mode) && loading == old(loading) && openComments == old(openComments)
      ensures old(mode) == Demo ==>
                && demoVotes == old(demoVotes)[id := NextCount(old(demoVotes), id)]
                && items == SetVotes(old(items), id, NextCount(old(demoVotes), id))
      ensures old(mode) != Demo ==> demoVotes == old(demoVotes) && items == old(items)
    {
      if mode == Demo {
        var current := NextCount(demoVotes, id);
        demoVotes := demoVotes[id := current];
        items := SetVotes(items, id, current);
      }
    }

    /** Whether the comments of `id` are shown (`openComments[id]`, missing is hidden). */
    function CommentsOpen(id: string): bool
      reads this
    {
      id in openComments && openComments[id]
    }

    /** The comments toggle: flips the flag of `id` and no other. */
    method ToggleComments(id: string)
      modifies this
      ensures CommentsOpen(id) == !old(CommentsOpen(id))
      ensures forall k :: k != id ==> CommentsOpen(k) == old(CommentsOpen(k))
      ensures items == old(items) && demoVotes == old(demoVotes) && mode == old(mode) && loading == old(loading)
    {
      openComments := openComments[id := !CommentsOpen(id)];
    }
  }
}
