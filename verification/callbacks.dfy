/** Inline-button callbacks: the data string each button carries, how the
    handler reads it back, and what each kind of button does. */
module Callbacks {
  import opened Wrappers
  import opened Board
  import Text
  import Votes
  import Publication
  import Payments

  datatype Callback =
    | PublishFree
    | PublishPriority
    | Vote(dir: Dir, id: IdeaId)
    | PayPriority(id: IdeaId)
    | Unhandled

  const Separator: char := '_'

  function DirName(d: Dir): string {
    match d
    case Up => "up"
    case Down => "down"
  }

  /** The data string of each button the bot creates: the two publication
      literals, and `vote_<dir>_<id>` and `pay_priority_<id>`, which split
      back into exactly their three pieces. */
  function Encode(c: Callback): (data: string)
    requires !c.Unhandled?
    ensures c.Vote? ==>
      Text.Split(data, Separator) == ["vote", DirName(c.dir), Text.NatToString(c.id)]
    ensures c.PayPriority? ==>
      Text.Split(data, Separator) == ["pay", "priority", Text.NatToString(c.id)]
  {
    match c
    case PublishFree => "publish_free"
    case PublishPriority => "publish_priority"
    case Vote(d, id) =>
      SplitButton("vote", DirName(d), id);
      Text.Join(["vote", DirName(d), Text.NatToString(id)], Separator)
    case PayPriority(id) =>
      SplitButton("pay", "priority", id);
      Text.Join(["pay", "priority", Text.NatToString(id)], Separator)
  }

  /** The i-th piece of a destructured split, or undefined. */
  function Part(parts: seq<string>, i: nat): Option<string> {
    if i < |parts| then Some(parts[i]) else None
  }

  function ParseDir(kind: Option<string>): Option<Dir> {
    if kind == Some("up") then Some(Up)
    else if kind == Some("down") then Some(Down)
    else None
  }

  function ParseId(value: Option<string>): Option<IdeaId> {
    match value
    case Some(v) => Text.ParseNat(v)
    case None => None
  }

  /** The callback handler's reading of button data: the two publication
      literals first, then `[action, type, value] = data.split('_')`, with any
      pieces after the third ignored. */
  function Parse(data: string): (c: Callback)
    ensures c == PublishFree <==> data == "publish_free"
    ensures c == PublishPriority <==> data == "publish_priority"
    ensures c.Vote? || c.PayPriority? ==>
      var parts := Text.Split(data, Separator);
      && |parts| >= 3
      && parts[0] == (if c.Vote? then "vote" else "pay")
      && Text.ParseNat(parts[2]) == Some(c.id)
    ensures c.Vote? ==> Text.Split(data, Separator)[1] == DirName(c.dir)
    ensures c.PayPriority? ==> Text.Split(data, Separator)[1] == "priority"
    ensures data != "publish_free" && data != "publish_priority" ==>
      var parts := Text.Split(data, Separator);
      |parts| >= 3 && parts[0] == "vote" && ParseDir(Some(parts[1])).Some? && Text.ParseNat(parts[2]).Some? ==>
        c == Vote(ParseDir(Some(parts[1])).value, Text.ParseNat(parts[2]).value)
    ensures data != "publish_free" && data != "publish_priority" ==>
      var parts := Text.Split(data, Separator);
      |parts| >= 3 && parts[0] == "pay" && parts[1] == "priority" && Text.ParseNat(parts[2]).Some? ==>
        c == PayPriority(Text.ParseNat(parts[2]).value)
    ensures c.Unhandled? <==>
      var parts := Text.Split(data, Separator);
      && data != "publish_free" && data != "publish_priority"
      && !(|parts| >= 3 && parts[0] == "vote" && ParseDir(Some(parts[1])).Some? && Text.ParseNat(parts[2]).Some?)
      && !(|parts| >= 3 && parts[0] == "pay" && parts[1] == "priority" && Text.ParseNat(parts[2]).Some?)
  {
    if data == "publish_free" then PublishFree
    else if data == "publish_priority" then PublishPriority
    else
      var parts := Text.Split(data, Separator);
      var action := parts[0];
      var kind := Part(parts, 1);
      var id := ParseId(Part(parts, 2));
      if action == "vote" then
        if ParseDir(kind).Some? && id.Some? then Vote(ParseDir(kind).value, id.value) else Unhandled
      else if action == "pay" && kind == Some("priority") then
        if id.Some? then PayPriority(id.value) else Unhandled
      else Unhandled
  }

  /** The pieces of a three-part button string built from separator-free
      words and an id. */
  lemma SplitButton(action: string, kind: string, id: IdeaId)
    requires Separator !in action && Separator !in kind
    ensures var digits := Text.NatToString(id);
      && Text.Split(Text.Join([action, kind, digits], Separator), Separator) == [action, kind, digits]
      && Text.ParseNat(digits) == Some(id)
  {
    var digits := Text.NatToString(id);
    assert forall k :: 0 <= k < |digits| ==> digits[k] != Separator;
    Text.SplitJoin([action, kind, digits], Separator);
    Text.ParseNatToString(id);
  }

  /** Every button the bot creates is read back as the action it was made for. */
  lemma ParseEncode(c: Callback)
    requires !c.Unhandled?
    ensures Parse(Encode(c)) == c
  {
    match c
    case PublishFree =>
    case PublishPriority =>
    case Vote(d, id) =>
      Text.ParseNatToString(id);
      assert Encode(c)[0] == 'v';
    case PayPriority(id) =>
      Text.ParseNatToString(id);
      assert Encode(c)[1] == 'a';
  }

  datatype CallbackReply =
    | NoDraft
    | PublishedFree(id: IdeaId)
    | PublishFailed(publish: Publication.PublishOutcome)
    | InvoiceRequested(payload: Payments.Payload)
    | VoteReply(vote: Votes.VoteOutcome)
    | NoReply

  datatype CallbackResult = CallbackResult(store: Store, drafts: map<UserId, Draft>, reply: CallbackReply)

  /** The `callback_query` handler for a press by `user`. Free publication
      uses the user's draft with no initial votes and drops the draft only
      when the post went out; the paid button and the boost button only ask
      the payment platform for an invoice. */
  function HandleCallback(s: Store, drafts: map<UserId, Draft>, user: UserId, data: string,
                          io: Publication.PublishIO): (r: CallbackResult)
    ensures Parse(data).PublishFree? && user in drafts ==>
      var d := drafts[user];
      var p := Publication.Publish(s, user, d.userName, d.text, Publication.FreeVotes, Some(d.fullDescription), io);
      && r.store == p.store
      && (p.outcome.Published? ==> r.drafts == drafts - {user} && r.reply == PublishedFree(p.outcome.id))
      && (!p.outcome.Published? ==> r.drafts == drafts && r.reply == PublishFailed(p.outcome))
    ensures (Parse(data).PublishFree? || Parse(data).PublishPriority?) && user !in drafts ==>
      r.store == s && r.drafts == drafts && r.reply == NoDraft
    ensures Parse(data).PublishPriority? && user in drafts ==>
      r.store == s && r.drafts == drafts && r.reply == InvoiceRequested(Payments.PublishPriority(user))
    ensures Parse(data).PayPriority? ==>
      r.store == s && r.drafts == drafts && r.reply == InvoiceRequested(Payments.BoostIdea(Parse(data).id))
    ensures Parse(data).Vote? ==>
      var v := Votes.CastVote(s, user, Parse(data).id, Parse(data).dir);
      r.store == v.store && r.drafts == drafts && r.reply == VoteReply(v.outcome)
    ensures Parse(data).Unhandled? ==> r.store == s && r.drafts == drafts && r.reply == NoReply
  {
    match Parse(data)
    case PublishFree =>
      if user !in drafts then CallbackResult(s, drafts, NoDraft)
      else
        var d := drafts[user];
        var p := Publication.Publish(s, user, d.userName, d.text, Publication.FreeVotes, Some(d.fullDescription), io);
        if p.outcome.Published? then CallbackResult(p.store, drafts - {user}, PublishedFree(p.outcome.id))
        else CallbackResult(p.store, drafts, PublishFailed(p.outcome))
    case PublishPriority =>
      if user !in drafts then CallbackResult(s, drafts, NoDraft)
      else CallbackResult(s, drafts, InvoiceRequested(Payments.PublishPriority(user)))
    case Vote(dir, id) =>
      var v := Votes.CastVote(s, user, id, dir);
      CallbackResult(v.store, drafts, VoteReply(v.outcome))
    case PayPriority(id) => CallbackResult(s, drafts, InvoiceRequested(Payments.BoostIdea(id)))
    case Unhandled => CallbackResult(s, drafts, NoReply)
  }
}
