/** The conversation with the refinement model and the lifecycle of sessions
    and drafts held in process memory. The model call, its readiness test and
    the parsing of its final answer are external: the reply arrives in an
    `AiIO`, and readiness and parsing are passed in as functions. */
module Conversation {
  import opened Wrappers
  import opened Board

  datatype Role = UserRole | AssistantRole
  datatype Turn = Turn(role: Role, content: string)

  /** A conversation with the model. Its id is the owner and the clock
      reading at creation, as in `${userId}_${Date.now()}`. */
  datatype Session = Session(owner: UserId, createdAt: nat, messages: seq<Turn>, questionCount: nat)

  /** What parsing the model's final answer yields; an empty field means the
      answer did not contain it. */
  datatype FinalAnswer = FinalAnswer(fullDescription: string, shortDraft: string)

  /** The outside world for one message: whether a model API key is
      configured, the model's reply (None when the call threw), and the clock. */
  datatype AiIO = AiIO(configured: bool, reply: Option<string>, now: nat)

  /** The two in-memory maps. */
  datatype Memory = Memory(sessions: map<UserId, Session>, drafts: map<UserId, Draft>)

  const Anonymous: string := "Anonymous"

  /** `first_name || username || 'Anonymous'`. */
  function DisplayName(firstName: string, username: string): (name: string)
    ensures name != ""
    ensures firstName != "" ==> name == firstName
    ensures firstName == "" && username != "" ==> name == username
    ensures firstName == "" && username == "" ==> name == Anonymous
  {
    if firstName != "" then firstName else if username != "" then username else Anonymous
  }

  /** `username || first_name || 'Anonymous'`. */
  function Handle(firstName: string, username: string): (handle: string)
    ensures handle != ""
    ensures username != "" ==> handle == username
    ensures username == "" && firstName != "" ==> handle == firstName
    ensures username == "" && firstName == "" ==> handle == Anonymous
  {
    if username != "" then username else if firstName != "" then firstName else Anonymous
  }

  /** The number of turns the user contributed. */
  function UserTurns(turns: seq<Turn>): nat {
    if turns == [] then 0
    else (if turns[0].role == UserRole then 1 else 0) + UserTurns(turns[1..])
  }

  /** A session counts exactly the user's turns, and each user turn is
      followed by at most one reply. */
  ghost predicate SessionOk(user: UserId, s: Session) {
    && s.owner == user
    && UserTurns(s.messages) == s.questionCount
    && s.questionCount <= |s.messages| <= 2 * s.questionCount
  }

  ghost predicate SessionsOk(sessions: map<UserId, Session>) {
    forall u :: u in sessions ==> SessionOk(u, sessions[u])
  }

  /** A fresh session: no turns yet and a question count of zero. */
  function NewSession(user: UserId, now: nat): (s: Session)
    ensures SessionOk(user, s) && s.messages == [] && s.questionCount == 0
  {
    Session(user, now, [], 0)
  }

  datatype Exchange = Exchange(sessions: map<UserId, Session>, reply: Option<string>)

  /** `getAIResponse`: without a model nothing happens; otherwise the user's
      session is created if missing, the message is appended and counted, and
      the model's reply is appended when the call succeeds. A failed call
      leaves the user's turn counted, since the session was already changed. */
  function Ask(sessions: map<UserId, Session>, user: UserId, message: string, io: AiIO): (r: Exchange)
    ensures !io.configured ==> r == Exchange(sessions, None)
    ensures io.configured ==>
      var before := if user in sessions then sessions[user] else NewSession(user, io.now);
      && user in r.sessions
      && r.sessions[user].owner == before.owner
      && r.sessions[user].createdAt == before.createdAt
      && r.sessions[user].questionCount == before.questionCount + 1
      && r.sessions[user].messages == before.messages + [Turn(UserRole, message)]
           + (if io.reply.Some? then [Turn(AssistantRole, io.reply.value)] else [])
      && r.reply == io.reply
    ensures r.sessions.Keys == sessions.Keys + (if io.configured then {user} else {})
    ensures forall u :: u in sessions && u != user ==> r.sessions[u] == sessions[u]
  {
    if !io.configured then Exchange(sessions, None)
    else
      var s := if user in sessions then sessions[user] else NewSession(user, io.now);
      var asked := s.(messages := s.messages + [Turn(UserRole, message)], questionCount := s.questionCount + 1);
      match io.reply
      case None => Exchange(sessions[user := asked], None)
      case Some(reply) =>
        Exchange(sessions[user := asked.(messages := asked.messages + [Turn(AssistantRole, reply)])], Some(reply))
  }

  lemma {:induction false} UserTurnsAppend(turns: seq<Turn>, t: Turn)
    ensures UserTurns(turns + [t]) == UserTurns(turns) + (if t.role == UserRole then 1 else 0)
  {
    if turns == [] {
      assert [t][1..] == [];
    } else {
      assert (turns + [t])[1..] == turns[1..] + [t];
      UserTurnsAppend(turns[1..], t);
    }
  }

  /** Every exchange keeps each session's question count equal to the number
      of user turns in its history. */
  lemma AskKeepsSessionsOk(sessions: map<UserId, Session>, user: UserId, message: string, io: AiIO)
    requires SessionsOk(sessions)
    ensures SessionsOk(Ask(sessions, user, message, io).sessions)
  {
    if io.configured {
      var s := if user in sessions then sessions[user] else NewSession(user, io.now);
      var m1 := s.messages + [Turn(UserRole, message)];
      UserTurnsAppend(s.messages, Turn(UserRole, message));
      if io.reply.Some? {
        UserTurnsAppend(m1, Turn(AssistantRole, io.reply.value));
      }
    }
  }

  datatype TextReply =
    | FollowUp(question: string)
    | StillGathering(answer: string)
    | Finalized(answer: string)
    | FallbackDraft

  datatype TextResult = TextResult(memory: Memory, reply: TextReply)

  /** JavaScript truthiness of the model's reply. */
  predicate Answered(reply: Option<string>) {
    reply.Some? && reply.value != ""
  }

  /** The `text` handler. A truthy reply before readiness is sent on as the
      next question. A truthy reply once ready is parsed: without both parts
      the conversation simply continues; with both, the draft is stored and
      the session deleted. With no reply at all, the message itself becomes
      the draft, as both short and full text. */
  function HandleText(m: Memory, user: UserId, firstName: string, username: string, message: string,
                      io: AiIO, ready: nat -> bool, parse: string -> FinalAnswer): (r: TextResult)
    ensures var ex := Ask(m.sessions, user, message, io);
      && (r.reply.FallbackDraft? <==> !Answered(ex.reply))
      && (r.reply.FallbackDraft? ==> r.memory.sessions == ex.sessions)
      && (r.reply.FollowUp? || r.reply.StillGathering? ==> r.memory == m.(sessions := ex.sessions))
      && (r.reply.FollowUp? <==> Answered(ex.reply) && !ready(ex.sessions[user].questionCount))
      && (r.reply.Finalized? <==>
            && Answered(ex.reply) && ready(ex.sessions[user].questionCount)
            && parse(ex.reply.value).shortDraft != "" && parse(ex.reply.value).fullDescription != "")
      && (r.reply.FollowUp? ==> r.reply.question == ex.reply.value)
      && (r.reply.StillGathering? || r.reply.Finalized? ==> r.reply.answer == ex.reply.value)
    ensures r.reply.FallbackDraft? ==>
      r.memory.drafts == m.drafts[user := Draft(message, message, DisplayName(firstName, username),
                                                Handle(firstName, username))]
    ensures r.reply.Finalized? ==>
      var f := parse(r.reply.answer);
      && f.shortDraft != "" && f.fullDescription != ""
      && user !in r.memory.sessions
      && r.memory.drafts == m.drafts[user := Draft(f.shortDraft, f.fullDescription,
                                                   DisplayName(firstName, username), Handle(firstName, username))]
    ensures r.reply.StillGathering? ==>
      var f := parse(r.reply.answer);
      f.shortDraft == "" || f.fullDescription == ""
    ensures forall u :: u != user ==>
      && (u in r.memory.sessions <==> u in m.sessions)
      && (u in m.sessions ==> r.memory.sessions[u] == m.sessions[u])
      && (u in r.memory.drafts <==> u in m.drafts)
      && (u in m.drafts ==> r.memory.drafts[u] == m.drafts[u])
  {
    var name := DisplayName(firstName, username);
    var handle := Handle(firstName, username);
    var ex := Ask(m.sessions, user, message, io);
    if Answered(ex.reply) then
      var answer := ex.reply.value;
      if !ready(ex.sessions[user].questionCount) then TextResult(m.(sessions := ex.sessions), FollowUp(answer))
      else
        var f := parse(answer);
        if f.fullDescription == "" || f.shortDraft == "" then
          TextResult(m.(sessions := ex.sessions), StillGathering(answer))
        else
          var draft := Draft(f.shortDraft, f.fullDescription, name, handle);
          TextResult(Memory(ex.sessions - {user}, m.drafts[user := draft]), Finalized(answer))
    else
      var draft := Draft(message, message, name, handle);
      TextResult(m.(sessions := ex.sessions, drafts := m.drafts[user := draft]), FallbackDraft)
  }

  /** Handling a message keeps every session's question count equal to the
      number of user turns in its history. */
  lemma HandleTextKeepsSessionsOk(m: Memory, user: UserId, firstName: string, username: string, message: string,
                                  io: AiIO, ready: nat -> bool, parse: string -> FinalAnswer)
    requires SessionsOk(m.sessions)
    ensures SessionsOk(HandleText(m, user, firstName, username, message, io, ready, parse).memory.sessions)
  {
    AskKeepsSessionsOk(m.sessions, user, message, io);
  }

  /** Without a configured model the message itself becomes the draft, both
      as its short and its full text, and no session is opened. */
  lemma UnconfiguredFallsBack(m: Memory, user: UserId, firstName: string, username: string, message: string,
                              io: AiIO, ready: nat -> bool, parse: string -> FinalAnswer)
    requires !io.configured
    ensures var r := HandleText(m, user, firstName, username, message, io, ready, parse);
      && r.reply == FallbackDraft
      && r.memory.sessions == m.sessions
      && r.memory.drafts[user].text == message
      && r.memory.drafts[user].fullDescription == message
  {
  }
}
