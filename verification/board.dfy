/** The bot's data model: the rows of the ideas, votes and payments tables,
    the pinned leaderboard reference, and the in-memory drafts. */
module Board {
  import opened Wrappers

  type UserId = nat
  type IdeaId = nat

  /** Telegram message ids are positive. */
  type MessageRef = n: nat | n > 0 witness 1

  /** The bonus a priority idea carries in its tally and the amount a boost adds. */
  const PriorityBonus: int := 10

  /** The shortest idea text publication accepts, in UTF-16 code units. */
  const MinTextLength: nat := 3

  datatype Dir = Up | Down

  /** A row of the votes table. */
  datatype VoteRow = VoteRow(voter: UserId, idea: IdeaId, dir: Dir)

  /** A row of the ideas table. Publication writes its initial votes into a
      `votes_count` column, while every later read and update uses
      `vote_count`; the model keeps both. `insertedVotes` is written once and
      never read; `voteCount` starts at its column default, taken to be 0. */
  datatype Idea = Idea(
    owner: UserId,
    ownerName: string,
    shortText: string,
    fullText: string,
    insertedVotes: int,
    voteCount: int,
    hasPriority: bool,
    post: Option<MessageRef>)

  /** A row of the payments table; `featureId` is null for a payment made
      before its idea was published, until it is filled in. */
  datatype Payment = Payment(payer: UserId, featureId: Option<IdeaId>, stars: nat, chargeId: string)

  /** Everything the bot keeps in the datastore. Ideas get ids from a
      counter, as a serial column does. */
  datatype Store = Store(
    ideas: map<IdeaId, Idea>,
    votes: seq<VoteRow>,
    nextId: IdeaId,
    payments: seq<Payment>,
    pinned: Option<MessageRef>)

  /** An unpublished idea held in memory until the user picks a way to publish it. */
  datatype Draft = Draft(text: string, fullDescription: string, userName: string, userUsername: string)

  /** The part of an idea's tally that comes from priority. */
  function Bonus(idea: Idea): int {
    if idea.hasPriority then PriorityBonus else 0
  }
}
