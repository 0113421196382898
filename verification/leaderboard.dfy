/** The daily leaderboard: the ten ideas with the highest stored vote
    count, labelled with medals and ordinals, published by editing the
    tracked pinned post or, failing that, by posting and pinning a new one. */
module Leaderboard {
  import opened Wrappers
  import opened Board
  import Text

  const TopSize: nat := 10

  /** The columns the leaderboard selects from an idea row. */
  datatype Entry = Entry(id: IdeaId, votes: int, post: Option<MessageRef>)

  function EntryOf(ideas: map<IdeaId, Idea>, id: IdeaId): Entry
    requires id in ideas
  {
    Entry(id, ideas[id].voteCount, ideas[id].post)
  }

  /** Each id at most once, in increasing order. */
  predicate IdsIncreasing(rows: seq<Entry>) {
    forall i, j :: 0 <= i < j < |rows| ==> rows[i].id < rows[j].id
  }

  lemma ConsIncreasing(e: Entry, rest: seq<Entry>)
    requires IdsIncreasing(rest)
    requires forall k :: 0 <= k < |rest| ==> e.id < rest[k].id
    ensures IdsIncreasing([e] + rest)
  {
    var rows := [e] + rest;
    forall i, j | 0 <= i < j < |rows| ensures rows[i].id < rows[j].id {
      assert rows[j] == rest[j - 1];
      if i > 0 {
        assert rows[i] == rest[i - 1];
      }
    }
  }

  /** The idea rows with ids in [lo, hi), in id order. */
  function Rows(ideas: map<IdeaId, Idea>, lo: nat, hi: nat): (rows: seq<Entry>)
    ensures forall k :: 0 <= k < |rows| ==>
      rows[k].id in ideas && lo <= rows[k].id < hi && rows[k] == EntryOf(ideas, rows[k].id)
    ensures forall id :: lo <= id < hi && id in ideas ==> EntryOf(ideas, id) in rows
    ensures IdsIncreasing(rows)
    decreases hi - lo
  {
    if lo >= hi then []
    else
      var rest := Rows(ideas, lo + 1, hi);
      if lo in ideas then
        ConsIncreasing(EntryOf(ideas, lo), rest);
        [EntryOf(ideas, lo)] + rest
      else rest
  }

  /** An empty table has no rows. */
  lemma {:induction false} NoIdeasNoRows(lo: nat, hi: nat)
    ensures Rows(map[], lo, hi) == []
    decreases hi - lo
  {
    if lo < hi {
      NoIdeasNoRows(lo + 1, hi);
    }
  }

  predicate SortedDesc(xs: seq<Entry>) {
    forall i, j :: 0 <= i < j < |xs| ==> xs[i].votes >= xs[j].votes
  }

  lemma ConsSorted(h: Entry, t: seq<Entry>)
    requires SortedDesc(t)
    requires |t| == 0 || h.votes >= t[0].votes
    ensures SortedDesc([h] + t)
  {
  }

  function Insert(x: Entry, xs: seq<Entry>): (r: seq<Entry>)
    requires SortedDesc(xs)
    ensures SortedDesc(r)
    ensures |r| == |xs| + 1
    ensures multiset(r) == multiset(xs) + multiset{x}
    ensures r[0] == x || (|xs| > 0 && r[0] == xs[0])
  {
    if xs == [] then [x]
    else if x.votes >= xs[0].votes then
      ConsSorted(x, xs);
      [x] + xs
    else
      var tail := xs[1..];
      assert SortedDesc(tail) by {
        forall i, j | 0 <= i < j < |tail| ensures tail[i].votes >= tail[j].votes {
          assert tail[i] == xs[i + 1] && tail[j] == xs[j + 1];
        }
      }
      var rest := Insert(x, tail);
      ConsSorted(xs[0], rest);
      assert xs == [xs[0]] + tail;
      assert multiset([xs[0]] + rest) == multiset{xs[0]} + multiset(rest);
      [xs[0]] + rest
  }

  /** The rows ordered by descending vote count (`order('vote_count', { ascending: false })`). */
  function SortDesc(xs: seq<Entry>): (r: seq<Entry>)
    ensures SortedDesc(r)
    ensures |r| == |xs|
    ensures multiset(r) == multiset(xs)
  {
    if xs == [] then []
    else
      assert xs == [xs[0]] + xs[1..];
      Insert(xs[0], SortDesc(xs[1..]))
  }

  function Min(a: nat, b: nat): nat {
    if a <= b then a else b
  }

  /** The query's result: at most ten rows, highest counts first. */
  function Top(rows: seq<Entry>): (top: seq<Entry>)
    ensures |top| == Min(TopSize, |rows|)
    ensures SortedDesc(top)
    ensures multiset(top) <= multiset(rows)
  {
    var sorted := SortDesc(rows);
    var n := Min(TopSize, |rows|);
    assert sorted == sorted[..n] + sorted[n..];
    assert multiset(sorted) == multiset(sorted[..n]) + multiset(sorted[n..]);
    sorted[..n]
  }

  /** No row left off the leaderboard has more votes than any row on it. */
  lemma TopDominates(rows: seq<Entry>, x: Entry)
    requires x in multiset(rows) - multiset(Top(rows))
    ensures forall k :: 0 <= k < |Top(rows)| ==> Top(rows)[k].votes >= x.votes
  {
    var sorted := SortDesc(rows);
    var n := Min(TopSize, |rows|);
    var top := Top(rows);
    var rest := sorted[n..];
    assert top == sorted[..n];
    assert sorted == top + rest;
    assert x in multiset(rest) by {
      assert multiset(sorted) == multiset(top) + multiset(rest);
      assert multiset(rows) == multiset(sorted);
    }
    assert x in rest;
    var j :| 0 <= j < |rest| && rest[j] == x;
    forall k | 0 <= k < |top| ensures top[k].votes >= x.votes {
      assert top[k] == sorted[k] && sorted[n + j] == x;
    }
  }

  /** The rank marker of the entry at index i: medals for the first three,
      then "4.", "5.", and so on. */
  function Label(i: nat): (mark: string)
    ensures i < 3 ==> |mark| == 1 && !Text.IsDigit(mark[0])
    ensures i >= 3 ==> mark == Text.NatToString(i + 1) + "."
  {
    if i == 0 then "🥇"
    else if i == 1 then "🥈"
    else if i == 2 then "🥉"
    else Text.NatToString(i + 1) + "."
  }

  /** Different ranks get different labels. */
  lemma LabelsDistinct(i: nat, j: nat)
    requires Label(i) == Label(j)
    ensures i == j
  {
    if i >= 3 && j >= 3 {
      var a := Text.NatToString(i + 1);
      var b := Text.NatToString(j + 1);
      assert a == (a + ".")[..|a|];
      assert b == (b + ".")[..|b|];
      Text.NatToStringInjective(i + 1, j + 1);
    }
  }

  /** One line of the leaderboard message. */
  datatype Line = Line(rank: string, votes: int, post: Option<MessageRef>)

  /** The message lines of a leaderboard: one per entry, in the same order,
      each under its own rank marker. */
  function Render(top: seq<Entry>): (lines: seq<Line>)
    ensures |lines| == |top|
    ensures forall i :: 0 <= i < |top| ==> lines[i].votes == top[i].votes && lines[i].post == top[i].post
    ensures forall i :: 0 <= i < |top| ==> lines[i].rank == Label(i)
    ensures forall i, j :: 0 <= i < j < |lines| ==> lines[i].rank != lines[j].rank
    ensures SortedDesc(top) ==> forall i, j :: 0 <= i < j < |lines| ==> lines[i].votes >= lines[j].votes
  {
    var lines := seq(|top|, i requires 0 <= i < |top| => Line(Label(i), top[i].votes, top[i].post));
    assert forall i, j :: 0 <= i < j < |lines| ==> lines[i].rank != lines[j].rank by {
      forall i, j | 0 <= i < j < |lines| ensures lines[i].rank != lines[j].rank {
        if Label(i) == Label(j) {
          LabelsDistinct(i, j);
        }
      }
    }
    lines
  }

  /** The outside world for one run: whether the query succeeded, whether
      editing the tracked post succeeded, the id of a newly sent post (None
      when sending threw), and whether pinning it succeeded. */
  datatype LeaderboardIO = LeaderboardIO(queryOk: bool, editOk: bool, sent: Option<MessageRef>, pinOk: bool)

  datatype RunOutcome =
    | Skipped
    | Edited(lines: seq<Line>)
    | Reposted(ref: MessageRef, lines: seq<Line>)
    | SentUnpinned(ref: MessageRef, lines: seq<Line>)
    | Failed(lines: seq<Line>)

  datatype RunResult = RunResult(pinned: Option<MessageRef>, outcome: RunOutcome)

  /** `updateTopIdeasPost` over the selected rows and the tracked post. */
  function Update(rows: seq<Entry>, pinned: Option<MessageRef>, io: LeaderboardIO): (r: RunResult)
    ensures r.outcome.Skipped? <==> !io.queryOk || rows == []
    ensures !r.outcome.Skipped? ==>
      var lines := r.outcome.lines;
      && |lines| == Min(TopSize, |rows|)
      && (forall i :: 0 <= i < |lines| ==> lines[i].rank == Label(i))
      && (forall i, j :: 0 <= i < j < |lines| ==> lines[i].votes >= lines[j].votes)
      && (forall i :: 0 <= i < |lines| ==> lines[i].votes == Top(rows)[i].votes && lines[i].post == Top(rows)[i].post)
    ensures r.outcome.Edited? <==> !r.outcome.Skipped? && pinned.Some? && io.editOk
    ensures r.outcome.Reposted? <==>
      !r.outcome.Skipped? && !(pinned.Some? && io.editOk) && io.sent.Some? && io.pinOk
    ensures r.outcome.Reposted? ==> r.outcome.ref == io.sent.value
    ensures r.outcome.SentUnpinned? <==>
      !r.outcome.Skipped? && !(pinned.Some? && io.editOk) && io.sent.Some? && !io.pinOk
    ensures r.outcome.SentUnpinned? ==> r.outcome.ref == io.sent.value
    ensures r.pinned == (if r.outcome.Reposted? then Some(r.outcome.ref) else pinned)
  {
    var top := Top(rows);
    if !io.queryOk || top == [] then RunResult(pinned, Skipped)
    else
      var lines := Render(top);
      if pinned.Some? && io.editOk then RunResult(pinned, Edited(lines))
      else
        match io.sent
        case None => RunResult(pinned, Failed(lines))
        case Some(n) =>
          if io.pinOk then RunResult(Some(n), Reposted(n, lines))
          else RunResult(pinned, SentUnpinned(n, lines))
  }

  /** The posted board is the true top of the table: no row missing from it
      has more votes than any line on it. */
  lemma UpdateShowsLeaders(rows: seq<Entry>, pinned: Option<MessageRef>, io: LeaderboardIO)
    requires io.queryOk && rows != []
    ensures var lines := Update(rows, pinned, io).outcome.lines;
      forall x :: x in multiset(rows) - multiset(Top(rows)) ==>
        forall i :: 0 <= i < |lines| ==> lines[i].votes >= x.votes
  {
    forall x | x in multiset(rows) - multiset(Top(rows)) {
      TopDominates(rows, x);
    }
  }
}
