/**
 * The backend's in-memory store and its endpoints: the chat turn (session
 * get-or-create, routing, agent reply, history updates), the specialist
 * agent table, user creation and lookup, and session lookup and ending.
 * Fresh ids and the clock are parameters; 404 answers are `Err` results.
 */
module Backend {
  import opened Wrappers
  import opened Seqs
  import opened Models
  import opened Director
  import opened Conversation

  datatype HttpError = HttpError(status: int, detail: string)

  /** One row of the `/sessions/{id}/history` answer. */
  datatype HistoryRow = HistoryRow(role: string, content: string, timestamp: int)

  /** Agents that are routed to but answer with a placeholder. */
  const PlaceholderAgents: seq<string> := ["pronunciation", "reading", "writing", "progress"]

  /** `request.session_id or str(uuid.uuid4())`: an empty id counts as absent. */
  function SessionIdFor(request: ChatRequest, freshId: string): (sid: string)
    ensures request.sessionId.Some? && request.sessionId.value != "" ==> sid == request.sessionId.value
    ensures (request.sessionId.None? || request.sessionId.value == "") ==> sid == freshId
  {
    match request.sessionId
    case Some(given) => if given != "" then given else freshId
    case None => freshId
  }

  /** The user context handed to the agents: the profile's level and language, when the user is known. */
  function ContextFor(profiles: map<string, UserProfile>, userId: Option<string>): (ctx: Option<AgentContext>)
    ensures ctx.Some? <==> userId.Some? && userId.value in profiles
    ensures ctx.Some? ==> ctx.value == AgentContext(Some(LevelValue(profiles[userId.value].currentLevel)),
                                                    Some(profiles[userId.value].targetLanguage))
  {
    if userId.Some? && userId.value in profiles then
      var p := profiles[userId.value];
      Some(AgentContext(Some(LevelValue(p.currentLevel)), Some(p.targetLanguage)))
    else None
  }

  /** `conversation_histories.get(session_id, [])`. */
  function HistoryOf(histories: map<string, seq<ChatMessage>>, sid: string): seq<ChatMessage> {
    if sid in histories then histories[sid] else []
  }

  /** The placeholder reply of an agent that is not implemented yet. */
  function Placeholder(agentName: string, message: string, sid: string): (r: ChatResponse)
    ensures r.confidence == 50 && r.feedback == NotImplementedFeedback
    ensures r.agentType == agentName && r.routedTo == Some(agentName) && r.sessionId == Some(sid)
  {
    ChatResponse("The " + agentName + " agent is coming soon! For now, let's practice conversation. " + message,
      agentName, Some(sid), Some(agentName), 50, NotImplementedFeedback, [])
  }

  /**
   * `_get_agent_response`: the conversation agent (at the context's level,
   * beginner by default), a placeholder for the four unimplemented agents,
   * and a default conversation agent for any other name.
   */
  method GetAgentResponse(agentName: string, message: string, history: seq<ChatMessage>,
                          ctx: Option<AgentContext>, sid: string,
                          llm: seq<PromptMessage> -> Option<string>, choices: Choices)
    returns (r: ChatResponse)
    ensures r == AgentReply(agentName, message, history, ctx, sid, llm, choices)
  {
    if agentName == "conversation" {
      r := Converse(ContextLanguage(ctx, "hiligaynon"), ContextLevel(ctx, "beginner"), message, history, ctx, llm, choices);
      assert ContextLevel(ctx, ContextLevel(ctx, "beginner")) == ContextLevel(ctx, "beginner");
    } else if agentName in PlaceholderAgents {
      r := Placeholder(agentName, message, sid);
    } else {
      r := Converse("hiligaynon", "beginner", message, history, ctx, llm, choices);
    }
  }

  /** A fresh conversation agent at the given language and level answers one message. */
  method Converse(language: string, level: string, message: string, history: seq<ChatMessage>,
                  ctx: Option<AgentContext>, llm: seq<PromptMessage> -> Option<string>, choices: Choices)
    returns (r: ChatResponse)
    ensures r == ResponseFor(message, history, ContextLevel(ctx, level), llm, choices)
  {
    var agent := new ConversationAgent(language, level);
    r := agent.Respond(message, history, ctx, llm, choices);
  }

  /** The two session-log entries one turn adds. */
  function TurnEntries(message: string, reply: string, agent: string, now: int): seq<SessionEntry> {
    [SessionEntry("user", message, now, None), SessionEntry("assistant", reply, now, Some(agent))]
  }

  /** The session after a turn: the routed agent becomes current and the two entries are logged. */
  function AdvanceSession(session: UserSession, agent: string, message: string, reply: string, now: int): UserSession {
    session.(currentAgent := agent,
             conversationHistory := session.conversationHistory + TurnEntries(message, reply, agent, now))
  }

  /** The two history messages one turn adds. */
  function TurnMessages(message: string, reply: string, now: int): seq<ChatMessage> {
    [ChatMessage(User, message, now), ChatMessage(Assistant, reply, now)]
  }

  /**
   * A session's own log agrees with its message history entry by entry, and
   * the history alternates user and assistant turns, starting with the user.
   */
  predicate Transcript(entries: seq<SessionEntry>, messages: seq<ChatMessage>) {
    |entries| == |messages| && |messages| % 2 == 0
    && forall i :: 0 <= i < |messages| ==>
         entries[i].role == RoleValue(messages[i].role) && entries[i].content == messages[i].content
         && messages[i].role == (if i % 2 == 0 then User else Assistant)
  }

  /** A completed turn keeps the session log and the history in step. */
  lemma TranscriptTurn(entries: seq<SessionEntry>, messages: seq<ChatMessage>,
                       message: string, reply: string, agent: string, now: int)
    requires Transcript(entries, messages)
    ensures Transcript(entries + TurnEntries(message, reply, agent, now), messages + TurnMessages(message, reply, now))
  {
    var e := entries + TurnEntries(message, reply, agent, now);
    var m := messages + TurnMessages(message, reply, now);
    forall i | 0 <= i < |m|
      ensures e[i].role == RoleValue(m[i].role) && e[i].content == m[i].content
        && m[i].role == (if i % 2 == 0 then User else Assistant)
    {
      if i >= |messages| {
        assert i == |messages| || i == |messages| + 1;
      }
    }
  }

  /** Sessions and histories have the same keys, and each session's log matches its history. */
  ghost predicate StoreInvariant(sessions: map<string, UserSession>, histories: map<string, seq<ChatMessage>>) {
    sessions.Keys == histories.Keys
    && forall sid :: sid in sessions ==>
         sessions[sid].sessionId == sid && Transcript(sessions[sid].conversationHistory, histories[sid])
  }

  /** Recording one turn for a session (existing, or new with an empty log) keeps the store invariant. */
  lemma StoreTurn(sessions: map<string, UserSession>, histories: map<string, seq<ChatMessage>>,
                  sid: string, session: UserSession, message: string, reply: string, agent: string, now: int)
    requires StoreInvariant(sessions, histories)
    requires session.sessionId == sid
    requires sid in sessions ==> session == sessions[sid]
    requires sid !in sessions ==> session.conversationHistory == []
    ensures StoreInvariant(
      sessions[sid := AdvanceSession(session, agent, message, reply, now)],
      histories[sid := HistoryOf(histories, sid) + TurnMessages(message, reply, now)])
  {
    TranscriptTurn(session.conversationHistory, HistoryOf(histories, sid), message, reply, agent, now);
  }

  class Store {
    var activeSessions: map<string, UserSession>
    var userProfiles: map<string, UserProfile>
    var conversationHistories: map<string, seq<ChatMessage>>

    ghost predicate Valid()
      reads this
    {
      StoreInvariant(activeSessions, conversationHistories)
    }

    constructor()
      ensures Valid()
      ensures activeSessions == map[] && userProfiles == map[] && conversationHistories == map[]
    {
      activeSessions := map[];
      userProfiles := map[];
      conversationHistories := map[];
    }

    /** The session a turn continues, or the one it creates (empty log, `current_agent` "director"). */
    function SessionFor(sid: string, userId: Option<string>, now: int): UserSession
      reads this
    {
      if sid in activeSessions then activeSessions[sid]
      else UserSession(sid, userId, [], "director", true, now, None)
    }

    /**
     * `POST /chat`: get or create the session, route the message, ask the
     * agent with the history as it was before this turn, append one user and
     * one assistant entry to both logs, and stamp the reply with the session
     * id and the routing decision.
     */
    method Chat(request: ChatRequest, freshId: string, now: int,
                llm: seq<PromptMessage> -> Option<string>, choices: Choices)
      returns (r: ChatResponse)
      requires Valid()
      modifies this
      ensures Valid()
      ensures var sid := SessionIdFor(request, freshId);
        var route := RouteMessage(request.message);
        var history := HistoryOf(old(conversationHistories), sid);
        var reply := AgentReply(route.targetAgent, request.message, history,
                                ContextFor(old(userProfiles), request.userId), sid, llm, choices);
        && r == reply.(sessionId := Some(sid), routedTo := Some(route.targetAgent), confidence := route.confidence)
        && activeSessions == old(activeSessions)[sid := AdvanceSession(old(SessionFor(sid, request.userId, now)),
                                                                       route.targetAgent, request.message, reply.message, now)]
        && conversationHistories == old(conversationHistories)[sid := history + TurnMessages(request.message, reply.message, now)]
        && userProfiles == old(userProfiles)
    {
      var sid := SessionIdFor(request, freshId);
      var session := SessionFor(sid, request.userId, now);
      var history := HistoryOf(conversationHistories, sid);
      var ctx := ContextFor(userProfiles, request.userId);
      var route := RouteMessage(request.message);
      // The agents never touch the store, so creating the session after the
      // agent call leaves the same final state as creating it before.
      var response := GetAgentResponse(route.targetAgent, request.message, history, ctx, sid, llm, choices);
      RecordTurn(sid, session, history, request.message, response.message, route.targetAgent, now);
      r := response.(sessionId := Some(sid), routedTo := Some(route.targetAgent), confidence := route.confidence);
    }

    /**
     * The store updates of one turn: create the session when it is new, log
     * the two entries in the session and in the history, and make the routed
     * agent current.
     */
    method RecordTurn(sid: string, session: UserSession, history: seq<ChatMessage>,
                      message: string, reply: string, agent: string, now: int)
      requires Valid()
      requires session == SessionFor(sid, session.userId, session.startedAt) && session.sessionId == sid
      requires history == HistoryOf(conversationHistories, sid)
      modifies this
      ensures Valid()
      ensures activeSessions == old(activeSessions)[sid := AdvanceSession(session, agent, message, reply, now)]
      ensures conversationHistories == old(conversationHistories)[sid := history + TurnMessages(message, reply, now)]
      ensures userProfiles == old(userProfiles)
    {
      StoreTurn(activeSessions, conversationHistories, sid, session, message, reply, agent, now);
      if sid !in activeSessions {
        activeSessions := activeSessions[sid := session];
      }
      activeSessions := activeSessions[sid := AdvanceSession(session, agent, message, reply, now)];
      conversationHistories := conversationHistories[sid := history + TurnMessages(message, reply, now)];
    }

    /** `POST /users`: a new profile under a fresh id, with the model's defaults. */
    method CreateUser(email: string, name: string, nativeLanguage: string, targetLanguage: string,
                      freshId: string, now: int)
      returns (profile: UserProfile)
      requires Valid()
      modifies this
      ensures Valid()
      ensures profile == UserProfile(freshId, email, name, nativeLanguage, targetLanguage,
                                     BeginnerLevel, 0, 0, 100, now, now)
      ensures userProfiles == old(userProfiles)[freshId := profile]
      ensures activeSessions == old(activeSessions) && conversationHistories == old(conversationHistories)
    {
      profile := UserProfile(freshId, email, name, nativeLanguage, targetLanguage, BeginnerLevel, 0, 0, 100, now, now);
      userProfiles := userProfiles[freshId := profile];
    }

    /** `GET /users/{id}`: 404 exactly when the id is unknown. */
    function GetUser(userId: string): (r: Result<UserProfile, HttpError>)
      reads this
      ensures r.Err? <==> userId !in userProfiles
      ensures r.Err? ==> r.error == HttpError(404, "User not found")
      ensures r.Ok? ==> r.value == userProfiles[userId]
    {
      if userId !in userProfiles then Err(HttpError(404, "User not found")) else Ok(userProfiles[userId])
    }

    /** `GET /sessions/{id}`: 404 exactly when the id is unknown; ended sessions are still found. */
    function GetSession(sid: string): (r: Result<UserSession, HttpError>)
      reads this
      ensures r.Err? <==> sid !in activeSessions
      ensures r.Err? ==> r.error == HttpError(404, "Session not found")
      ensures r.Ok? ==> r.value == activeSessions[sid]
    {
      if sid !in activeSessions then Err(HttpError(404, "Session not found")) else Ok(activeSessions[sid])
    }

    /** `GET /sessions/{id}/history`: the history as rows, or 404 when the id has no history. */
    function GetSessionHistory(sid: string): (r: Result<seq<HistoryRow>, HttpError>)
      reads this
      ensures r.Err? <==> sid !in conversationHistories
      ensures r.Err? ==> r.error == HttpError(404, "Session not found")
      ensures r.Ok? ==>
        |r.value| == |conversationHistories[sid]|
        && (forall i :: 0 <= i < |r.value| ==>
              r.value[i] == HistoryRow(RoleValue(conversationHistories[sid][i].role),
                                       conversationHistories[sid][i].content,
                                       conversationHistories[sid][i].timestamp))
    {
      if sid !in conversationHistories then Err(HttpError(404, "Session not found"))
      else Ok(Map(conversationHistories[sid], (m: ChatMessage) => HistoryRow(RoleValue(m.role), m.content, m.timestamp)))
    }

    /**
     * `DELETE /sessions/{id}`: an existing session is marked inactive with
     * its end time and stays stored; an unknown id is a 404 and changes nothing.
     */
    method EndSession(sid: string, now: int) returns (r: Result<string, HttpError>)
      requires Valid()
      modifies this
      ensures Valid()
      ensures r.Err? <==> sid !in old(activeSessions)
      ensures r.Err? ==> r.error == HttpError(404, "Session not found") && unchanged(this)
      ensures r.Ok? ==>
        r.value == sid
        && activeSessions == old(activeSessions)[sid := old(activeSessions)[sid].(isActive := false, endedAt := Some(now))]
        && conversationHistories == old(conversationHistories) && userProfiles == old(userProfiles)
    {
      if sid in activeSessions {
        var session := activeSessions[sid];
        activeSessions := activeSessions[sid := session.(isActive := false, endedAt := Some(now))];
        r := Ok(sid);
      } else {
        r := Err(HttpError(404, "Session not found"));
      }
    }
  }

  /** What `_get_agent_response` answers, as a function of its inputs. */
  function AgentReply(agentName: string, message: string, history: seq<ChatMessage>,
                      ctx: Option<AgentContext>, sid: string,
                      llm: seq<PromptMessage> -> Option<string>, choices: Choices): ChatResponse
  {
    if agentName in PlaceholderAgents then Placeholder(agentName, message, sid)
    else ResponseFor(message, history, ContextLevel(ctx, "beginner"), llm, choices)
  }

  /**
   * The specialist-agent table: the four unimplemented agents answer with a
   * 0.5 placeholder under their own name; every other name is answered by the
   * conversation agent, at one of its three confidences.
   */
  lemma AgentReplyTable(agentName: string, message: string, history: seq<ChatMessage>,
                        ctx: Option<AgentContext>, sid: string,
                        llm: seq<PromptMessage> -> Option<string>, choices: Choices)
    ensures var r := AgentReply(agentName, message, history, ctx, sid, llm, choices);
      && (agentName in PlaceholderAgents <==> r.confidence == 50)
      && (agentName in PlaceholderAgents ==> r.agentType == agentName && r.feedback == NotImplementedFeedback)
      && (agentName !in PlaceholderAgents ==> r.agentType == "conversation" && r.confidence in {70, 90, 95})
  {
  }
}
