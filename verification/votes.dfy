/** Vote casting: one row per (voter, idea), a repeated direction is refused,
    the other direction overwrites the row, and the idea's tally is then
    recomputed from every row for that idea plus the priority bonus. */
module Votes {
  import opened Wrappers
  import opened Board

  predicate SameKey(row: VoteRow, voter: UserId, idea: IdeaId) {
    row.voter == voter && row.idea == idea
  }

  /** At most one vote row per (voter, idea) pair. */
  ghost predicate UniqueVotes(rows: seq<VoteRow>) {
    forall i, j :: 0 <= i < j < |rows| ==> rows[i].voter != rows[j].voter || rows[i].idea != rows[j].idea
  }

  /** The directions of every row for the pair, in table order. */
  function Matching(rows: seq<VoteRow>, voter: UserId, idea: IdeaId): (ds: seq<Dir>)
    ensures |ds| <= |rows|
  {
    if rows == [] then []
    else (if SameKey(rows[0], voter, idea) then [rows[0].dir] else []) + Matching(rows[1..], voter, idea)
  }

  /** The lookup of an existing vote with `.single()`: a direction only when
      exactly one row matches, null otherwise. */
  function Existing(rows: seq<VoteRow>, voter: UserId, idea: IdeaId): Option<Dir> {
    var ds := Matching(rows, voter, idea);
    if |ds| == 1 then Some(ds[0]) else None
  }

  /** The number of rows for `idea` in direction `dir`. */
  function Count(rows: seq<VoteRow>, idea: IdeaId, dir: Dir): nat {
    if rows == [] then 0
    else (if rows[0].idea == idea && rows[0].dir == dir then 1 else 0) + Count(rows[1..], idea, dir)
  }

  /** Up-votes minus down-votes for `idea`. */
  function Net(rows: seq<VoteRow>, idea: IdeaId): int {
    Count(rows, idea, Up) - Count(rows, idea, Down)
  }

  /** The update of `vote_type` on every row of the pair. */
  function Retarget(rows: seq<VoteRow>, voter: UserId, idea: IdeaId, dir: Dir): (r: seq<VoteRow>)
    ensures |r| == |rows|
  {
    if rows == [] then []
    else [if SameKey(rows[0], voter, idea) then rows[0].(dir := dir) else rows[0]]
         + Retarget(rows[1..], voter, idea, dir)
  }

  datatype VoteOutcome = AlreadyVoted | Counted(ups: nat, downs: nat, total: int)
  datatype VoteResult = VoteResult(store: Store, outcome: VoteOutcome)

  /** The change in an idea's net votes that casting `dir` makes when the
      voter's earlier vote was `before`. */
  function Delta(before: Option<Dir>, dir: Dir): int {
    match before
    case None => if dir == Up then 1 else -1
    case Some(d) => if d == dir then 0 else if dir == Up then 2 else -2
  }

  /** A vote callback: `voter` casts `dir` on `idea`. */
  function CastVote(s: Store, voter: UserId, idea: IdeaId, dir: Dir): (r: VoteResult)
    ensures r.outcome == AlreadyVoted <==> Existing(s.votes, voter, idea) == Some(dir)
    ensures r.outcome == AlreadyVoted ==> r.store == s
    ensures r.store.nextId == s.nextId && r.store.payments == s.payments && r.store.pinned == s.pinned
    ensures r.store.ideas.Keys == s.ideas.Keys
    ensures forall id :: id in s.ideas && id != idea ==> r.store.ideas[id] == s.ideas[id]
    ensures |r.store.votes| == |s.votes| + (if Existing(s.votes, voter, idea).None? then 1 else 0)
    ensures r.outcome.Counted? ==>
      && r.outcome.ups == Count(r.store.votes, idea, Up)
      && r.outcome.downs == Count(r.store.votes, idea, Down)
      && (idea in s.ideas ==>
            && r.store.ideas[idea].voteCount == Net(r.store.votes, idea) + Bonus(s.ideas[idea])
            && r.store.ideas[idea] == s.ideas[idea].(voteCount := r.outcome.total))
  {
    var existing := Existing(s.votes, voter, idea);
    if existing == Some(dir) then VoteResult(s, AlreadyVoted)
    else
      var rows :=
        if existing.Some? then Retarget(s.votes, voter, idea, dir)
        else s.votes + [VoteRow(voter, idea, dir)];
      var ups := Count(rows, idea, Up);
      var downs := Count(rows, idea, Down);
      var bonus := if idea in s.ideas && s.ideas[idea].hasPriority then PriorityBonus else 0;
      var total := ups - downs + bonus;
      var ideas := if idea in s.ideas then s.ideas[idea := s.ideas[idea].(voteCount := total)] else s.ideas;
      VoteResult(s.(votes := rows, ideas := ideas), Counted(ups, downs, total))
  }

  // ---------------------------------------------------------------------------
  // Facts about rows
  // ---------------------------------------------------------------------------

  lemma {:induction false} NoRowNoMatch(rows: seq<VoteRow>, voter: UserId, idea: IdeaId)
    requires forall k :: 0 <= k < |rows| ==> !SameKey(rows[k], voter, idea)
    ensures Matching(rows, voter, idea) == []
  {
    if rows != [] {
      NoRowNoMatch(rows[1..], voter, idea);
    }
  }

  lemma {:induction false} NoMatchNoRow(rows: seq<VoteRow>, voter: UserId, idea: IdeaId)
    requires Matching(rows, voter, idea) == []
    ensures forall k :: 0 <= k < |rows| ==> !SameKey(rows[k], voter, idea)
  {
    if rows != [] {
      NoMatchNoRow(rows[1..], voter, idea);
      forall k | 0 <= k < |rows| ensures !SameKey(rows[k], voter, idea) {
        if k > 0 { assert rows[k] == rows[1..][k - 1]; }
      }
    }
  }

  lemma UniqueVotesTail(rows: seq<VoteRow>)
    requires |rows| > 0 && UniqueVotes(rows)
    ensures UniqueVotes(rows[1..])
  {
  }

  /** Unique rows give at most one match per pair: the invariant makes the
      `.single()` lookup exact. */
  lemma {:induction false} UniqueAtMostOneMatch(rows: seq<VoteRow>, voter: UserId, idea: IdeaId)
    requires UniqueVotes(rows)
    ensures |Matching(rows, voter, idea)| <= 1
  {
    if rows != [] {
      UniqueVotesTail(rows);
      UniqueAtMostOneMatch(rows[1..], voter, idea);
      if SameKey(rows[0], voter, idea) {
        forall k | 0 <= k < |rows[1..]| ensures !SameKey(rows[1..][k], voter, idea) {
          assert rows[1..][k] == rows[k + 1];
        }
        NoRowNoMatch(rows[1..], voter, idea);
      }
    }
  }

  lemma {:induction false} MatchingAppend(rows: seq<VoteRow>, row: VoteRow, voter: UserId, idea: IdeaId)
    ensures Matching(rows + [row], voter, idea)
         == Matching(rows, voter, idea) + (if SameKey(row, voter, idea) then [row.dir] else [])
  {
    var last := if SameKey(row, voter, idea) then [row.dir] else [];
    if rows == [] {
      assert rows + [row] == [row];
      assert [row][1..] == [];
    } else {
      var extended := rows + [row];
      var head := if SameKey(rows[0], voter, idea) then [rows[0].dir] else [];
      assert extended[0] == rows[0];
      assert extended[1..] == rows[1..] + [row];
      MatchingAppend(rows[1..], row, voter, idea);
      calc {
        Matching(extended, voter, idea);
        head + Matching(rows[1..] + [row], voter, idea);
        head + (Matching(rows[1..], voter, idea) + last);
        (head + Matching(rows[1..], voter, idea)) + last;
        Matching(rows, voter, idea) + last;
      }
    }
  }

  lemma {:induction false} CountAppend(rows: seq<VoteRow>, row: VoteRow, idea: IdeaId, dir: Dir)
    ensures Count(rows + [row], idea, dir)
         == Count(rows, idea, dir) + (if row.idea == idea && row.dir == dir then 1 else 0)
  {
    if rows == [] {
      assert [row][1..] == [];
    } else {
      assert (rows + [row])[1..] == rows[1..] + [row];
      CountAppend(rows[1..], row, idea, dir);
    }
  }

  lemma {:induction false} RetargetKeepsKeys(rows: seq<VoteRow>, voter: UserId, idea: IdeaId, dir: Dir)
    ensures forall k :: 0 <= k < |rows| ==>
      && Retarget(rows, voter, idea, dir)[k].voter == rows[k].voter
      && Retarget(rows, voter, idea, dir)[k].idea == rows[k].idea
  {
    if rows != [] {
      RetargetKeepsKeys(rows[1..], voter, idea, dir);
      var r := Retarget(rows, voter, idea, dir);
      forall k | 0 <= k < |rows| ensures r[k].voter == rows[k].voter && r[k].idea == rows[k].idea {
        if k > 0 { assert r[k] == Retarget(rows[1..], voter, idea, dir)[k - 1]; }
      }
    }
  }

  lemma {:induction false} RetargetMatching(rows: seq<VoteRow>, voter: UserId, idea: IdeaId, dir: Dir,
                                            v: UserId, i: IdeaId)
    ensures |Matching(Retarget(rows, voter, idea, dir), v, i)| == |Matching(rows, v, i)|
    ensures (v != voter || i != idea) ==> Matching(Retarget(rows, voter, idea, dir), v, i) == Matching(rows, v, i)
    ensures v == voter && i == idea ==>
      forall k :: 0 <= k < |Matching(Retarget(rows, voter, idea, dir), v, i)| ==>
        Matching(Retarget(rows, voter, idea, dir), v, i)[k] == dir
  {
    if rows != [] {
      RetargetMatching(rows[1..], voter, idea, dir, v, i);
      var r := Retarget(rows, voter, idea, dir);
      assert r[1..] == Retarget(rows[1..], voter, idea, dir);
    }
  }

  lemma {:induction false} RetargetOtherCount(rows: seq<VoteRow>, voter: UserId, idea: IdeaId, dir: Dir,
                                              other: IdeaId, d: Dir)
    requires other != idea
    ensures Count(Retarget(rows, voter, idea, dir), other, d) == Count(rows, other, d)
  {
    if rows != [] {
      RetargetOtherCount(rows[1..], voter, idea, dir, other, d);
      assert Retarget(rows, voter, idea, dir)[1..] == Retarget(rows[1..], voter, idea, dir);
    }
  }

  /** Overwriting the direction of the pair's one row moves one unit of count
      from the prev direction to the new one. */
  lemma {:induction false} RetargetCount(rows: seq<VoteRow>, voter: UserId, idea: IdeaId, prev: Dir, dir: Dir, d: Dir)
    requires Matching(rows, voter, idea) == [prev]
    ensures Count(Retarget(rows, voter, idea, dir), idea, d)
         == Count(rows, idea, d) - (if prev == d then 1 else 0) + (if dir == d then 1 else 0)
  {
    var r := Retarget(rows, voter, idea, dir);
    assert r[1..] == Retarget(rows[1..], voter, idea, dir);
    if SameKey(rows[0], voter, idea) {
      assert Matching(rows[1..], voter, idea) == [];
      assert Matching(rows, voter, idea) == [rows[0].dir] + Matching(rows[1..], voter, idea);
      assert ([rows[0].dir] + Matching(rows[1..], voter, idea))[0] == rows[0].dir;
      assert rows[0].dir == prev;
      NoMatchNoRow(rows[1..], voter, idea);
      RetargetIdentity(rows[1..], voter, idea, dir);
      assert r[1..] == rows[1..];
      assert r[0] == rows[0].(dir := dir);
    } else {
      RetargetCount(rows[1..], voter, idea, prev, dir, d);
    }
  }

  lemma {:induction false} RetargetIdentity(rows: seq<VoteRow>, voter: UserId, idea: IdeaId, dir: Dir)
    requires forall k :: 0 <= k < |rows| ==> !SameKey(rows[k], voter, idea)
    ensures Retarget(rows, voter, idea, dir) == rows
  {
    if rows != [] {
      RetargetIdentity(rows[1..], voter, idea, dir);
    }
  }

  // ---------------------------------------------------------------------------
  // Properties of a vote
  // ---------------------------------------------------------------------------

  /** A counted vote leaves exactly one row for the pair, reading the cast
      direction, and keeps the table free of duplicate pairs. */
  lemma CastVoteRecordsDirection(s: Store, voter: UserId, idea: IdeaId, dir: Dir)
    requires UniqueVotes(s.votes)
    ensures Existing(CastVote(s, voter, idea, dir).store.votes, voter, idea) == Some(dir)
    ensures UniqueVotes(CastVote(s, voter, idea, dir).store.votes)
  {
    var rows := s.votes;
    var existing := Existing(rows, voter, idea);
    UniqueAtMostOneMatch(rows, voter, idea);
    if existing == Some(dir) {
    } else if existing.Some? {
      var r := Retarget(rows, voter, idea, dir);
      RetargetMatching(rows, voter, idea, dir, voter, idea);
      RetargetKeepsKeys(rows, voter, idea, dir);
      assert UniqueVotes(r) by {
        forall i, j | 0 <= i < j < |r| ensures r[i].voter != r[j].voter || r[i].idea != r[j].idea {
          assert rows[i].voter != rows[j].voter || rows[i].idea != rows[j].idea;
        }
      }
    } else {
      var row := VoteRow(voter, idea, dir);
      assert Matching(rows, voter, idea) == [];
      MatchingAppend(rows, row, voter, idea);
      NoMatchNoRow(rows, voter, idea);
      var r := rows + [row];
      assert UniqueVotes(r) by {
        forall i, j | 0 <= i < j < |r| ensures r[i].voter != r[j].voter || r[i].idea != r[j].idea {
          if j == |rows| {
            assert !SameKey(rows[i], voter, idea);
          }
        }
      }
    }
  }

  /** A vote changes no other voter's vote and no vote on another idea. */
  lemma CastVoteOtherPairsUnchanged(s: Store, voter: UserId, idea: IdeaId, dir: Dir, v: UserId, i: IdeaId)
    requires v != voter || i != idea
    ensures Existing(CastVote(s, voter, idea, dir).store.votes, v, i) == Existing(s.votes, v, i)
  {
    var existing := Existing(s.votes, voter, idea);
    if existing == Some(dir) {
    } else if existing.Some? {
      RetargetMatching(s.votes, voter, idea, dir, v, i);
    } else {
      MatchingAppend(s.votes, VoteRow(voter, idea, dir), v, i);
    }
  }

  /** The recomputed tally agrees with the incremental one: a new vote moves
      the net by one, a flipped vote by two, and other ideas' nets stay put. */
  lemma CastVoteDelta(s: Store, voter: UserId, idea: IdeaId, dir: Dir, other: IdeaId)
    requires UniqueVotes(s.votes)
    ensures Net(CastVote(s, voter, idea, dir).store.votes, idea)
         == Net(s.votes, idea) + Delta(Existing(s.votes, voter, idea), dir)
    ensures other != idea ==> Net(CastVote(s, voter, idea, dir).store.votes, other) == Net(s.votes, other)
  {
    var rows := s.votes;
    var existing := Existing(rows, voter, idea);
    UniqueAtMostOneMatch(rows, voter, idea);
    if existing == Some(dir) {
    } else if existing.Some? {
      assert Matching(rows, voter, idea) == [existing.value];
      RetargetCount(rows, voter, idea, existing.value, dir, Up);
      RetargetCount(rows, voter, idea, existing.value, dir, Down);
      if other != idea {
        RetargetOtherCount(rows, voter, idea, dir, other, Up);
        RetargetOtherCount(rows, voter, idea, dir, other, Down);
      }
    } else {
      var row := VoteRow(voter, idea, dir);
      CountAppend(rows, row, idea, Up);
      CountAppend(rows, row, idea, Down);
      CountAppend(rows, row, other, Up);
      CountAppend(rows, row, other, Down);
    }
  }

  /** An idea no row refers to has a net of zero. */
  lemma {:induction false} NoRowsNoNet(rows: seq<VoteRow>, idea: IdeaId)
    requires forall k :: 0 <= k < |rows| ==> rows[k].idea != idea
    ensures Count(rows, idea, Up) == 0 && Count(rows, idea, Down) == 0
  {
    if rows != [] {
      NoRowsNoNet(rows[1..], idea);
    }
  }

  /** Casting the same direction twice in a row: the second press is
      reported as already voted and changes nothing. */
  lemma SecondSamePressIsNoop(s: Store, voter: UserId, idea: IdeaId, dir: Dir)
    requires UniqueVotes(s.votes)
    ensures var t := CastVote(s, voter, idea, dir).store;
      CastVote(t, voter, idea, dir) == VoteResult(t, AlreadyVoted)
  {
    CastVoteRecordsDirection(s, voter, idea, dir);
  }

  /** Casting one direction and then the other: the second press rewrites
      the pair's row instead of adding one, and the vote reads the new
      direction. */
  lemma OppositePressFlips(s: Store, voter: UserId, idea: IdeaId, dir: Dir, other: Dir)
    requires UniqueVotes(s.votes) && other != dir
    ensures var t := CastVote(s, voter, idea, dir).store;
      var u := CastVote(t, voter, idea, other).store;
      && |u.votes| == |t.votes|
      && Existing(u.votes, voter, idea) == Some(other)
      && UniqueVotes(u.votes)
  {
    CastVoteRecordsDirection(s, voter, idea, dir);
    var t := CastVote(s, voter, idea, dir).store;
    CastVoteRecordsDirection(t, voter, idea, other);
  }
}
