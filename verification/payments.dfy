/** Confirmed payments: the payment row is written first, then either the
    pending draft is published with priority or an already published idea is
    boosted by ten votes. */
module Payments {
  import opened Wrappers
  import opened Board
  import Votes
  import Publication

  /** The invoice payload that travels through the payment platform: either
      `{action: 'publish_priority', user_id}` or `{request_id}`. */
  datatype Payload = PublishPriority(user: UserId) | BoostIdea(requestId: nat)

  datatype PaymentReply =
    | DraftNotFound
    | PublishedWithPriority(id: IdeaId)
    | NoReply
    | Boosted

  datatype PaymentResult = PaymentResult(store: Store, drafts: map<UserId, Draft>, reply: PaymentReply)

  /** The post-publication boost: ten more votes on the stored count and the
      priority flag set. An id with no record changes nothing. */
  function Boost(s: Store, id: IdeaId): (r: Store)
    ensures r.ideas.Keys == s.ideas.Keys
    ensures r.votes == s.votes && r.nextId == s.nextId && r.payments == s.payments && r.pinned == s.pinned
    ensures forall other :: other in s.ideas && other != id ==> r.ideas[other] == s.ideas[other]
    ensures id in s.ideas ==>
      && r.ideas[id].hasPriority
      && r.ideas[id].voteCount == s.ideas[id].voteCount + PriorityBonus
      && r.ideas[id] == s.ideas[id].(voteCount := r.ideas[id].voteCount, hasPriority := true)
    ensures id !in s.ideas ==> r == s
  {
    if id in s.ideas then
      var idea := s.ideas[id];
      s.(ideas := s.ideas[id := idea.(voteCount := idea.voteCount + PriorityBonus, hasPriority := true)])
    else s
  }

  /** Boosts stack on the stored count while the priority part of the
      recomputed tally stays at ten: after two boosts of an idea whose count
      was up to date, the count exceeds net votes plus bonus by ten. */
  lemma BoostsStack(s: Store, id: IdeaId)
    requires id in s.ideas
    requires s.ideas[id].voteCount == Votes.Net(s.votes, id) + Bonus(s.ideas[id])
    ensures var t := Boost(Boost(s, id), id);
      && t.ideas[id].voteCount == s.ideas[id].voteCount + 2 * PriorityBonus
      && t.ideas[id].voteCount == Votes.Net(t.votes, id) + Bonus(t.ideas[id]) + PriorityBonus
             + (if s.ideas[id].hasPriority then PriorityBonus else 0)
  {
  }

  /** `successful_payment`. The payment row is appended unconditionally, with
      the idea id of the payload if it has one. A pre-publication payment then
      publishes the payer's draft with ten initial votes, fills in the
      payment's idea id and drops the draft; a failed publication keeps the
      draft. A post-publication payment boosts the idea, unless its id is 0,
      which JavaScript reads as false. */
  function OnPaymentConfirmed(s: Store, drafts: map<UserId, Draft>, payer: UserId, payload: Payload,
                              stars: nat, chargeId: string, io: Publication.PublishIO): (r: PaymentResult)
    ensures |r.store.payments| == |s.payments| + 1
    ensures r.store.payments[..|s.payments|] == s.payments
    ensures var p := r.store.payments[|s.payments|];
      && p.payer == payer && p.stars == stars && p.chargeId == chargeId
      && p.featureId == (match payload
                         case BoostIdea(id) => Some(id)
                         case PublishPriority(_) => if r.reply.PublishedWithPriority? then Some(r.reply.id) else None)
    ensures r.store.votes == s.votes && r.store.pinned == s.pinned
    ensures !(payload.PublishPriority? && payload.user in drafts) ==> r.store.nextId == s.nextId
    ensures payload.BoostIdea? ==>
      r.drafts == drafts && r.reply == (if payload.requestId == 0 then NoReply else Boosted)
    ensures payload.BoostIdea? && payload.requestId != 0 ==>
      r.store.ideas == Boost(s, payload.requestId).ideas
    ensures payload.BoostIdea? && payload.requestId == 0 ==> r.store.ideas == s.ideas
    ensures payload.PublishPriority? && payload.user !in drafts ==>
      r.reply == DraftNotFound && r.drafts == drafts && r.store.ideas == s.ideas
    ensures payload.PublishPriority? && payload.user in drafts ==>
      var d := drafts[payload.user];
      var p := Publication.Publish(s, payload.user, d.userName, d.text, Publication.PaidVotes,
                                   Some(d.fullDescription), io);
      && r.store.ideas == p.store.ideas && r.store.nextId == p.store.nextId
      && (p.outcome.Published? <==> r.reply.PublishedWithPriority?)
      && (p.outcome.Published? ==> r.reply.id == p.outcome.id && r.drafts == drafts - {payload.user})
      && (!p.outcome.Published? ==> r.drafts == drafts && r.reply == NoReply)
  {
    var feature := match payload
      case BoostIdea(id) => Some(id)
      case PublishPriority(_) => None;
    var s1 := s.(payments := s.payments + [Payment(payer, feature, stars, chargeId)]);
    match payload
    case PublishPriority(user) =>
      if user !in drafts then PaymentResult(s1, drafts, DraftNotFound)
      else
        var d := drafts[user];
        var p := Publication.Publish(s1, user, d.userName, d.text, Publication.PaidVotes, Some(d.fullDescription), io);
        if p.outcome.Published? then
          var filled := Payment(payer, Some(p.outcome.id), stars, chargeId);
          var t := p.store.(payments := s.payments + [filled]);
          PaymentResult(t, drafts - {user}, PublishedWithPriority(p.outcome.id))
        else PaymentResult(p.store, drafts, NoReply)
    case BoostIdea(id) =>
      if id == 0 then PaymentResult(s1, drafts, NoReply)
      else PaymentResult(Boost(s1, id), drafts, Boosted)
  }
}
