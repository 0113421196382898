/** The bot as one state machine: every inbound event is a step over the
    datastore and the in-memory maps, and the steps together keep the
    store's invariant. */
module Bot {
  import opened Wrappers
  import opened Board
  import Votes
  import Publication
  import Payments
  import Callbacks
  import Conversation
  import Leaderboard

  datatype State = State(store: Store, memory: Conversation.Memory)

  /** The inbound events, each with the outside world's answers to the calls
      its handler makes. */
  datatype Event =
    | Message(user: UserId, firstName: string, username: string, text: string, ai: Conversation.AiIO)
    | Button(user: UserId, data: string, publish: Publication.PublishIO)
    | PaymentConfirmed(payer: UserId, payload: Payments.Payload, stars: nat, chargeId: string,
                       publish: Publication.PublishIO)
    | DailyTick(board: Leaderboard.LeaderboardIO)

  /** The bot's dispatch: text messages go to the conversation, button
      presses and confirmed payments to the store and the drafts, and the
      daily tick to the leaderboard, which moves only the tracked post. */
  function Step(st: State, e: Event, ready: nat -> bool, parse: string -> Conversation.FinalAnswer): (next: State)
    ensures e.Message? ==> next.store == st.store
    ensures !e.Message? ==> next.memory.sessions == st.memory.sessions
    ensures e.DailyTick? ==> next.memory == st.memory && next.store == st.store.(pinned := next.store.pinned)
    ensures e.Button? && !Callbacks.Parse(e.data).Vote? ==> next.store.votes == st.store.votes
    ensures e.PaymentConfirmed? ==> |next.store.payments| == |st.store.payments| + 1
  {
    match e
    case Message(user, firstName, username, text, ai) =>
      var r := Conversation.HandleText(st.memory, user, firstName, username, text, ai, ready, parse);
      st.(memory := r.memory)
    case Button(user, data, io) =>
      var r := Callbacks.HandleCallback(st.store, st.memory.drafts, user, data, io);
      State(r.store, st.memory.(drafts := r.drafts))
    case PaymentConfirmed(payer, payload, stars, chargeId, io) =>
      var r := Payments.OnPaymentConfirmed(st.store, st.memory.drafts, payer, payload, stars, chargeId, io);
      State(r.store, st.memory.(drafts := r.drafts))
    case DailyTick(io) =>
      var rows := Leaderboard.Rows(st.store.ideas, 0, st.store.nextId);
      var r := Leaderboard.Update(rows, st.store.pinned, io);
      st.(store := st.store.(pinned := r.pinned))
  }

  /** How far an idea's stored count is from its recomputed tally (net votes
      plus the priority bonus). A vote brings it to zero; a paid publication
      starts it at minus ten, because the initial ten go into the other
      column; every boost of an idea that already has priority adds ten. */
  function Drift(idea: Idea, net: int): int {
    idea.voteCount - net - Bonus(idea)
  }

  ghost predicate DriftOk(idea: Idea, net: int) {
    var d := Drift(idea, net);
    && d % PriorityBonus == 0
    && d >= -PriorityBonus
    && (!idea.hasPriority ==> d == 0)
  }

  /** The store's invariant: a counter that starts at one (so every id it
      hands out is truthy in JavaScript), ids below it, votes only on existing
      ideas, one vote per pair, every count a whole number of boosts away
      from its tally, and every session consistent. */
  ghost predicate Invariant(st: State) {
    && st.store.nextId >= 1
    && (forall id :: id in st.store.ideas ==> id < st.store.nextId)
    && (forall k :: 0 <= k < |st.store.votes| ==> st.store.votes[k].idea in st.store.ideas)
    && Votes.UniqueVotes(st.store.votes)
    && (forall id :: id in st.store.ideas ==> DriftOk(st.store.ideas[id], Votes.Net(st.store.votes, id)))
    && Conversation.SessionsOk(st.memory.sessions)
  }

  /** Vote buttons exist only under published posts, so a vote names an
      idea that has a record. */
  ghost predicate VoteTargetsExist(st: State, e: Event) {
    e.Button? && Callbacks.Parse(e.data).Vote? ==> Callbacks.Parse(e.data).id in st.store.ideas
  }

  /** The empty store and memory the bot starts from. */
  function Initial(): (st: State)
    ensures Invariant(st)
  {
    State(Store(map[], [], 1, [], None), Conversation.Memory(map[], map[]))
  }

  // ---------------------------------------------------------------------------
  // The invariant across each kind of step
  // ---------------------------------------------------------------------------

  /** A publication keeps the invariant; the new idea starts at drift 0 on
      the free path and at minus ten on the paid one. */
  lemma PublishKeepsInvariant(st: State, owner: UserId, name: string, text: string, votes: int,
                              full: Option<string>, io: Publication.PublishIO, t: Store)
    requires Invariant(st)
    requires votes == Publication.FreeVotes || votes == Publication.PaidVotes
    requires t == Publication.Publish(st.store, owner, name, text, votes, full, io).store
    ensures Invariant(State(t, st.memory))
    ensures t != st.store ==>
      Drift(t.ideas[st.store.nextId], Votes.Net(t.votes, st.store.nextId))
        == (if votes == Publication.PaidVotes then -PriorityBonus else 0)
  {
    var s := st.store;
    if t != s {
      var id := s.nextId;
      Votes.NoRowsNoNet(s.votes, id);
      assert Drift(t.ideas[id], 0) == (if votes == Publication.PaidVotes then -PriorityBonus else 0);
      assert forall other :: other in s.ideas ==> t.ideas[other] == s.ideas[other];
    }
  }

  lemma VoteKeepsInvariant(st: State, voter: UserId, idea: IdeaId, dir: Dir)
    requires Invariant(st) && idea in st.store.ideas
    ensures Invariant(State(Votes.CastVote(st.store, voter, idea, dir).store, st.memory))
  {
    var s := st.store;
    var r := Votes.CastVote(s, voter, idea, dir);
    var t := r.store;
    Votes.CastVoteRecordsDirection(s, voter, idea, dir);
    if r.outcome.Counted? {
      assert forall k :: 0 <= k < |t.votes| ==> t.votes[k].idea in t.ideas by {
        if Votes.Existing(s.votes, voter, idea).Some? {
          Votes.RetargetKeepsKeys(s.votes, voter, idea, dir);
        }
      }
      forall id | id in t.ideas ensures DriftOk(t.ideas[id], Votes.Net(t.votes, id)) {
        Votes.CastVoteDelta(s, voter, idea, dir, id);
      }
    }
  }

  lemma WholeBoostsStayWhole(d: int)
    requires d % PriorityBonus == 0
    ensures (d + PriorityBonus) % PriorityBonus == 0
  {
  }

  /** A boost keeps the invariant; it raises the drift of an idea that
      already had priority by ten, and leaves a first-time boosted idea at
      drift 0. */
  lemma BoostKeepsInvariant(st: State, id: IdeaId, t: Store)
    requires Invariant(st)
    requires t.ideas == Payments.Boost(st.store, id).ideas
    requires t.votes == st.store.votes && t.nextId == st.store.nextId
    ensures Invariant(State(t, st.memory))
    ensures id in st.store.ideas && st.store.ideas[id].hasPriority ==>
      Drift(t.ideas[id], Votes.Net(t.votes, id))
        == Drift(st.store.ideas[id], Votes.Net(st.store.votes, id)) + PriorityBonus
    ensures id in st.store.ideas && !st.store.ideas[id].hasPriority ==>
      Drift(t.ideas[id], Votes.Net(t.votes, id)) == 0
  {
    var s := st.store;
    assert t.ideas.Keys == s.ideas.Keys;
    assert forall k :: 0 <= k < |t.votes| ==> t.votes[k].idea in t.ideas;
    forall other | other in t.ideas ensures DriftOk(t.ideas[other], Votes.Net(t.votes, other)) {
      if other == id {
        var net := Votes.Net(s.votes, id);
        var before := Drift(s.ideas[id], net);
        assert Drift(t.ideas[id], net) == before + Bonus(s.ideas[id]);
        WholeBoostsStayWhole(before);
      } else {
        assert t.ideas[other] == s.ideas[other];
      }
    }
  }

  /** Every event keeps the invariant. */
  lemma StepKeepsInvariant(st: State, e: Event, ready: nat -> bool, parse: string -> Conversation.FinalAnswer)
    requires Invariant(st) && VoteTargetsExist(st, e)
    ensures Invariant(Step(st, e, ready, parse))
  {
    match e
    case Message(user, firstName, username, text, ai) =>
      Conversation.HandleTextKeepsSessionsOk(st.memory, user, firstName, username, text, ai, ready, parse);
    case Button(user, data, io) =>
      var c := Callbacks.Parse(data);
      if c.PublishFree? && user in st.memory.drafts {
        var d := st.memory.drafts[user];
        var t := Publication.Publish(st.store, user, d.userName, d.text, Publication.FreeVotes,
                                     Some(d.fullDescription), io).store;
        PublishKeepsInvariant(st, user, d.userName, d.text, Publication.FreeVotes, Some(d.fullDescription), io, t);
      } else if c.Vote? {
        VoteKeepsInvariant(st, user, c.id, c.dir);
      }
    case PaymentConfirmed(payer, payload, stars, chargeId, io) =>
      var r := Payments.OnPaymentConfirmed(st.store, st.memory.drafts, payer, payload, stars, chargeId, io);
      match payload {
      case PublishPriority(user) =>
        if user in st.memory.drafts {
          var d := st.memory.drafts[user];
          var t := Publication.Publish(st.store, user, d.userName, d.text, Publication.PaidVotes,
                                       Some(d.fullDescription), io).store;
          PublishKeepsInvariant(st, user, d.userName, d.text, Publication.PaidVotes, Some(d.fullDescription), io, t);
          assert r.store.ideas == t.ideas && r.store.nextId == t.nextId;
        }
      case BoostIdea(id) =>
        if id != 0 {
          BoostKeepsInvariant(st, id, r.store);
        }
      }
    case DailyTick(io) =>
  }

  /** A publication that succeeds reports a non-zero id, so the handlers'
      `if (requestId)` tests take the success branch exactly when the model
      reports success. */
  lemma PublishedIdIsTruthy(st: State, owner: UserId, name: string, text: string, votes: int,
                            full: Option<string>, io: Publication.PublishIO)
    requires Invariant(st)
    ensures var p := Publication.Publish(st.store, owner, name, text, votes, full, io).outcome;
      p.Published? ==> p.id != 0
  {
  }

  // ---------------------------------------------------------------------------
  // Properties of whole steps
  // ---------------------------------------------------------------------------

  /** Ideas are never deleted and priority is never taken away. */
  lemma PriorityIsMonotonic(st: State, e: Event, ready: nat -> bool, parse: string -> Conversation.FinalAnswer,
                            id: IdeaId)
    requires id in st.store.ideas
    requires st.store.nextId !in st.store.ideas
    ensures id in Step(st, e, ready, parse).store.ideas
    ensures st.store.ideas[id].hasPriority ==> Step(st, e, ready, parse).store.ideas[id].hasPriority
  {
  }

  /** After a counted vote on an idea its stored count is exactly its net
      votes plus the priority bonus, whatever boosts came before. */
  lemma VoteReconciles(st: State, voter: UserId, idea: IdeaId, dir: Dir, io: Publication.PublishIO,
                       ready: nat -> bool, parse: string -> Conversation.FinalAnswer)
    requires idea in st.store.ideas
    requires Votes.Existing(st.store.votes, voter, idea) != Some(dir)
    ensures var data := Callbacks.Encode(Callbacks.Vote(dir, idea));
      var t := Step(st, Button(voter, data, io), ready, parse).store;
      Drift(t.ideas[idea], Votes.Net(t.votes, idea)) == 0
  {
    Callbacks.ParseEncode(Callbacks.Vote(dir, idea));
  }

  // ---------------------------------------------------------------------------
  // Scenarios
  // ---------------------------------------------------------------------------

  /** Without a model, a message of at least three characters becomes a
      draft with equal short and full text; the free button then publishes
      exactly one idea with no votes and no priority, and drops the draft. */
  lemma FallbackThenFreePublish(st: State, user: UserId, firstName: string, username: string, text: string,
                                now: nat, post: MessageRef, ready: nat -> bool,
                                parse: string -> Conversation.FinalAnswer)
    requires st.store.nextId !in st.store.ideas
    requires |text| >= MinTextLength
    ensures var st1 := Step(st, Message(user, firstName, username, text, Conversation.AiIO(false, None, now)),
                            ready, parse);
      var st2 := Step(st1, Button(user, "publish_free", Publication.PublishIO(true, Some(post))), ready, parse);
      var idea := st2.store.ideas[st.store.nextId];
      && st1.memory.drafts[user].text == text && st1.memory.drafts[user].fullDescription == text
      && st2.store.ideas.Keys == st.store.ideas.Keys + {st.store.nextId}
      && idea.shortText == text && idea.fullText == text
      && idea.voteCount == 0 && !idea.hasPriority
      && idea.post == Some(post)
      && user !in st2.memory.drafts
  {
  }

  /** A confirmed boost of idea 7 at three votes without priority leaves it
      at thirteen votes with priority, and records the payment against it. */
  lemma BoostScenario(st: State, payer: UserId, stars: nat, chargeId: string, io: Publication.PublishIO,
                      ready: nat -> bool, parse: string -> Conversation.FinalAnswer)
    requires 7 in st.store.ideas
    requires st.store.ideas[7].voteCount == 3 && !st.store.ideas[7].hasPriority
    ensures var t := Step(st, PaymentConfirmed(payer, Payments.BoostIdea(7), stars, chargeId, io), ready, parse).store;
      && t.ideas[7].voteCount == 13 && t.ideas[7].hasPriority
      && t.payments == st.store.payments + [Payment(payer, Some(7), stars, chargeId)]
  {
  }

  /** A leaderboard run over an empty store posts nothing and leaves the
      tracked post alone. */
  lemma EmptyLeaderboardSkips(st: State, io: Leaderboard.LeaderboardIO, ready: nat -> bool,
                              parse: string -> Conversation.FinalAnswer)
    requires st.store.ideas == map[]
    ensures Step(st, DailyTick(io), ready, parse) == st
  {
    Leaderboard.NoIdeasNoRows(0, st.store.nextId);
  }
}
