/** Publication of a draft: the length check, the new idea record, and the
    post to the channel. The datastore insert and the channel post are
    external; their outcomes arrive as a `PublishIO`. */
module Publication {
  import opened Wrappers
  import opened Board
  import Text

  /** What the outside world answers: whether the insert succeeded, and the
      channel post's message id if sending it succeeded. */
  datatype PublishIO = PublishIO(insertOk: bool, post: Option<MessageRef>)

  datatype PublishOutcome = TooShort | Failed | Published(id: IdeaId)
  datatype PublishResult = PublishResult(store: Store, outcome: PublishOutcome)

  /** Initial votes of the free publication path. */
  const FreeVotes: int := 0
  /** Initial votes of the paid publication path. */
  const PaidVotes: int := 10

  /** `fullDescription || messageText`: a missing or empty description falls
      back to the short text, so a record never gets an empty full text
      unless its short text is empty too. */
  function FullText(text: string, fullDescription: Option<string>): (full: string)
    ensures full == text || Some(full) == fullDescription
    ensures full == "" ==> text == ""
    ensures fullDescription.Some? && fullDescription.value != "" ==> full == fullDescription.value
  {
    match fullDescription
    case Some(d) => if d == "" then text else d
    case None => text
  }

  /** The store gained exactly one idea, under the counter's id. */
  ghost predicate Created(s: Store, t: Store) {
    && t.nextId == s.nextId + 1
    && t.ideas.Keys == s.ideas.Keys + {s.nextId}
  }

  /** `publishToChannel`: rejects text shorter than three UTF-16 code units,
      inserts a record whose priority flag is `initialVotes >= 10`, posts it,
      and stores the post's message id. A record whose post could not be sent
      stays in the store although the call reports failure. */
  function Publish(s: Store, owner: UserId, ownerName: string, text: string, initialVotes: int,
                   fullDescription: Option<string>, io: PublishIO): (r: PublishResult)
    ensures r.outcome.TooShort? <==> Text.Utf16Length(text) < MinTextLength
    ensures Created(s, r.store) <==> !r.outcome.TooShort? && io.insertOk
    ensures !Created(s, r.store) ==> r.store == s
    ensures r.outcome.Published? <==> Created(s, r.store) && io.post.Some?
    ensures r.outcome.Published? ==> r.outcome.id == s.nextId
    ensures r.store.votes == s.votes && r.store.payments == s.payments && r.store.pinned == s.pinned
    ensures Created(s, r.store) ==>
      var idea := r.store.ideas[s.nextId];
      && idea.owner == owner && idea.ownerName == ownerName
      && idea.shortText == text
      && idea.fullText == FullText(text, fullDescription)
      && idea.fullText != ""
      && idea.insertedVotes == initialVotes
      && idea.voteCount == 0
      && idea.hasPriority == (initialVotes >= PriorityBonus)
      && idea.post == io.post
    ensures s.nextId !in s.ideas ==>
      forall id :: id in s.ideas ==> id in r.store.ideas && r.store.ideas[id] == s.ideas[id]
  {
    if Text.Utf16Length(text) < MinTextLength then PublishResult(s, TooShort)
    else if !io.insertOk then PublishResult(s, Failed)
    else
      var id := s.nextId;
      var idea := Idea(owner, ownerName, text, FullText(text, fullDescription),
                       initialVotes, 0, initialVotes >= PriorityBonus, io.post);
      var t := s.(ideas := s.ideas[id := idea], nextId := id + 1);
      PublishResult(t, if io.post.Some? then Published(id) else Failed)
  }

  /** The free path creates an idea without priority, the paid path one with
      priority; neither puts anything into the column the tally reads. */
  lemma PublishPaths(s: Store, owner: UserId, ownerName: string, text: string, full: Option<string>, io: PublishIO)
    requires Text.Utf16Length(text) >= MinTextLength && io.insertOk
    ensures !Publish(s, owner, ownerName, text, FreeVotes, full, io).store.ideas[s.nextId].hasPriority
    ensures Publish(s, owner, ownerName, text, PaidVotes, full, io).store.ideas[s.nextId].hasPriority
    ensures Publish(s, owner, ownerName, text, PaidVotes, full, io).store.ideas[s.nextId].voteCount == 0
    ensures Publish(s, owner, ownerName, text, PaidVotes, full, io).store.ideas[s.nextId].insertedVotes == PaidVotes
  {
  }

  /** Text of fewer than three Basic Multilingual Plane characters is always
      too short, whatever the outside world would have answered. */
  lemma ShortTextRejected(s: Store, owner: UserId, ownerName: string, text: string, votes: int,
                          full: Option<string>, io: PublishIO)
    requires Text.InBmp(text) && |text| < MinTextLength
    ensures Publish(s, owner, ownerName, text, votes, full, io) == PublishResult(s, TooShort)
  {
    Text.BmpLength(text);
  }
}
