/** The chat store: the conversations with the assistant, which of them is
    open, and the energy level the user last reported, which is copied into
    the context of new and open sessions. */
module Chat {
  import opened Basics
  import opened Seqs
  import opened Events

  datatype MessageRole = UserRole | Assistant | System
  datatype EnergyState = Tired | Normal | Energized
  datatype SuggestionType = Reschedule | Add | Remove | Optimize

  /** A schedule change the assistant proposes. */
  datatype ScheduleSuggestion = ScheduleSuggestion(
    kind: SuggestionType,
    events: seq<EventPatch>,
    reasoning: string,
    accepted: Option<bool>)

  datatype ChatMessage = ChatMessage(
    id: Id,
    role: MessageRole,
    content: string,
    suggestion: Option<ScheduleSuggestion>,
    createdAt: int)

  /** What the caller of `addMessage` supplies: no id, no creation time. */
  datatype MessageData = MessageData(role: MessageRole, content: string, suggestion: Option<ScheduleSuggestion>)

  /** A `Partial<ChatMessage>` for `updateMessage`. */
  datatype MessagePatch = MessagePatch(
    role: Option<MessageRole>,
    content: Option<string>,
    suggestion: Option<ScheduleSuggestion>)

  datatype ChatContext = ChatContext(currentEnergyLevel: Option<EnergyState>, currentMood: Option<int>, todayDate: int)

  datatype ChatSession = ChatSession(id: Id, messages: seq<ChatMessage>, context: ChatContext, createdAt: int)

  /** `getRecentMessages`' default limit. */
  const DefaultRecentLimit: int := 10

  function SessionHasId(id: Id): ChatSession -> bool { (s: ChatSession) => s.id == id }
  function SessionNotId(id: Id): ChatSession -> bool { (s: ChatSession) => s.id != id }

  /** `s.id === currentSessionId`: never true while no session is open. */
  function IsCurrent(current: Option<Id>): ChatSession -> bool { (s: ChatSession) => current == Some(s.id) }

  // ---------------------------------------------------------------------
  // Sessions

  /** The session `createSession` opens on day `today`: no messages yet, and
      the current energy level in its context. */
  function NewSession(freshId: Id, today: int, energy: EnergyState, now: int): (s: ChatSession)
    ensures s.id == freshId && s.messages == []
    ensures s.context == ChatContext(Some(energy), None, today) && s.createdAt == now
  {
    ChatSession(freshId, [], ChatContext(Some(energy), None, today), now)
  }

  /** A session appended under an id no other session has is the one
      `getCurrentSession` finds once it is made current. */
  lemma {:induction false} NewSessionIsFound(sessions: seq<ChatSession>, s: ChatSession)
    requires forall t :: t in sessions ==> t.id != s.id
    ensures Find(sessions + [s], IsCurrent(Some(s.id))) == Some(s)
  {
    var all := sessions + [s];
    assert s in all;
    var r := Find(all, IsCurrent(Some(s.id)));
    assert r.value in all && r.value.id == s.id;
  }

  /** The sessions after `deleteSession`: exactly those with the id are gone. */
  function SessionsWithout(sessions: seq<ChatSession>, sessionId: Id): (r: seq<ChatSession>)
    ensures forall s :: s in r <==> s in sessions && s.id != sessionId
    ensures forall s: ChatSession :: s.id != sessionId ==> multiset(r)[s] == multiset(sessions)[s]
  {
    Filter(sessions, SessionNotId(sessionId))
  }

  /** Deleting a session leaves no current session among the remaining ones
      when it was the current one. */
  lemma DeletedSessionIsNotFound(sessions: seq<ChatSession>, sessionId: Id)
    ensures Find(SessionsWithout(sessions, sessionId), IsCurrent(Some(sessionId))).None?
  {
  }

  // ---------------------------------------------------------------------
  // Messages

  /** The message `addMessage` builds around the caller's data. */
  function NewMessage(data: MessageData, freshId: Id, now: int): (m: ChatMessage)
    ensures m.id == freshId && m.createdAt == now
    ensures m.role == data.role && m.content == data.content && m.suggestion == data.suggestion
  {
    ChatMessage(freshId, data.role, data.content, data.suggestion, now)
  }

  function AppendMessage(m: ChatMessage): ChatSession -> ChatSession {
    (s: ChatSession) => s.(messages := s.messages + [m])
  }

  /** The sessions after `addMessage`: the session with the id gains the
      message at the end of its conversation; every other session is kept.
      No session with the id means no change at all. */
  function WithMessage(sessions: seq<ChatSession>, sessionId: Id, m: ChatMessage): (r: seq<ChatSession>)
    ensures |r| == |sessions|
    ensures forall i :: 0 <= i < |sessions| && sessions[i].id != sessionId ==> r[i] == sessions[i]
    ensures forall i :: 0 <= i < |sessions| && sessions[i].id == sessionId ==>
      r[i].messages == sessions[i].messages + [m] && r[i].(messages := sessions[i].messages) == sessions[i]
  {
    UpdateWhere(sessions, SessionHasId(sessionId), AppendMessage(m))
  }

  /** `{...m, ...updates}`. */
  function PatchedMessage(m: ChatMessage, p: MessagePatch): (r: ChatMessage)
    ensures r.id == m.id && r.createdAt == m.createdAt
  {
    ChatMessage(m.id, Merge(p.role, m.role), Merge(p.content, m.content),
                MergeOptional(p.suggestion, m.suggestion), m.createdAt)
  }

  function PatchMessages(messageId: Id, p: MessagePatch): ChatSession -> ChatSession {
    (s: ChatSession) => s.(messages := UpdateWhere(s.messages, (m: ChatMessage) => m.id == messageId,
                                                   (m: ChatMessage) => PatchedMessage(m, p)))
  }

  /** The sessions after `updateMessage`: within the session with the id, the
      messages with the message id are patched in place; nothing else
      changes. */
  function MessageUpdated(sessions: seq<ChatSession>, sessionId: Id, messageId: Id, p: MessagePatch)
    : (r: seq<ChatSession>)
    ensures |r| == |sessions|
    ensures forall i :: 0 <= i < |sessions| && sessions[i].id != sessionId ==> r[i] == sessions[i]
    ensures forall i, j :: 0 <= i < |sessions| && sessions[i].id == sessionId && 0 <= j < |sessions[i].messages| ==>
      |r[i].messages| == |sessions[i].messages| &&
      r[i].messages[j] == (if sessions[i].messages[j].id == messageId
                           then PatchedMessage(sessions[i].messages[j], p)
                           else sessions[i].messages[j])
  {
    UpdateWhere(sessions, SessionHasId(sessionId), PatchMessages(messageId, p))
  }

  function ClearMessages(s: ChatSession): ChatSession { s.(messages := []) }

  /** The sessions after `clearSession`: the session with the id keeps its
      id, context and creation time but no messages. */
  function Cleared(sessions: seq<ChatSession>, sessionId: Id): (r: seq<ChatSession>)
    ensures |r| == |sessions|
    ensures forall i :: 0 <= i < |sessions| && sessions[i].id != sessionId ==> r[i] == sessions[i]
    ensures forall i :: 0 <= i < |sessions| && sessions[i].id == sessionId ==>
      r[i].messages == [] && r[i].(messages := sessions[i].messages) == sessions[i]
  {
    UpdateWhere(sessions, SessionHasId(sessionId), ClearMessages)
  }

  /** Clearing a session forgets every message added to it, and clearing
      twice is clearing once. */
  lemma ClearForgetsMessages(sessions: seq<ChatSession>, sessionId: Id, m: ChatMessage)
    ensures Cleared(WithMessage(sessions, sessionId, m), sessionId) == Cleared(sessions, sessionId)
    ensures Cleared(Cleared(sessions, sessionId), sessionId) == Cleared(sessions, sessionId)
  {
  }

  function WithEnergy(level: EnergyState): ChatSession -> ChatSession {
    (s: ChatSession) => s.(context := s.context.(currentEnergyLevel := Some(level)))
  }

  /** The sessions after the second step of `setEnergyLevel`: the context of
      the session with the id records the level. */
  function EnergyRecorded(sessions: seq<ChatSession>, sessionId: Id, level: EnergyState): (r: seq<ChatSession>)
    ensures |r| == |sessions|
    ensures forall i :: 0 <= i < |sessions| && sessions[i].id != sessionId ==> r[i] == sessions[i]
    ensures forall i :: 0 <= i < |sessions| && sessions[i].id == sessionId ==>
      r[i].context.currentEnergyLevel == Some(level) &&
      r[i].context.(currentEnergyLevel := sessions[i].context.currentEnergyLevel) == sessions[i].context &&
      r[i].messages == sessions[i].messages
  {
    UpdateWhere(sessions, SessionHasId(sessionId), WithEnergy(level))
  }

  // ---------------------------------------------------------------------
  // Recent messages

  /** `messages.slice(-limit)`: the last `limit` messages, or all of them
      when there are fewer; a limit of 0 is `slice(0)`, which keeps them all,
      and a negative limit drops that many from the front. */
  function RecentMessages(messages: seq<ChatMessage>, limit: int): (r: seq<ChatMessage>)
    ensures |r| <= |messages| && r == messages[|messages| - |r|..]
    ensures 0 < limit <= |messages| ==> |r| == limit
    ensures limit >= |messages| || limit == 0 ==> r == messages
    ensures limit < 0 ==> r == messages[if -limit <= |messages| then -limit else |messages|..]
  {
    messages[RelativeIndex(|messages|, -limit)..]
  }

  /** With the default limit, at most the ten newest messages, and all of
      them once there are ten or fewer. */
  lemma RecentMessagesDefault(messages: seq<ChatMessage>)
    ensures |RecentMessages(messages, DefaultRecentLimit)| <= 10
    ensures |messages| <= 10 ==> RecentMessages(messages, DefaultRecentLimit) == messages
    ensures |messages| > 10 ==> RecentMessages(messages, DefaultRecentLimit) == messages[|messages| - 10..]
  {
  }

  // ---------------------------------------------------------------------
  // The store

  class ChatStore {
    var sessions: seq<ChatSession>
    var currentSessionId: Option<Id>
    var currentEnergyLevel: EnergyState

    constructor ()
      ensures sessions == [] && currentSessionId == None && currentEnergyLevel == Normal
    {
      sessions := [];
      currentSessionId := None;
      currentEnergyLevel := Normal;
    }

    /** `getCurrentSession`: the first session whose id is the current one. */
    function GetCurrentSession(): (r: Option<ChatSession>)
      reads this
      ensures r.None? <==> forall s :: s in sessions ==> currentSessionId != Some(s.id)
      ensures r.Some? ==> r.value in sessions && currentSessionId == Some(r.value.id)
    {
      Find(sessions, IsCurrent(currentSessionId))
    }

    /** `createSession` on day `today` at instant `now`: the new session is
        appended and becomes the current one; with a fresh id it is then
        what `getCurrentSession` returns. */
    method CreateSession(freshId: Id, today: int, now: int) returns (id: Id)
      requires DayOf(now) == today
      modifies this
      ensures id == freshId
      ensures sessions == old(sessions) + [NewSession(freshId, today, old(currentEnergyLevel), now)]
      ensures currentSessionId == Some(freshId) && currentEnergyLevel == old(currentEnergyLevel)
      ensures (forall s :: s in old(sessions) ==> s.id != freshId) ==>
        GetCurrentSession() == Some(NewSession(freshId, today, currentEnergyLevel, now))
    {
      var newSession := NewSession(freshId, today, currentEnergyLevel, now);
      if forall s :: s in sessions ==> s.id != freshId {
        NewSessionIsFound(sessions, newSession);
      }
      sessions := sessions + [newSession];
      currentSessionId := Some(newSession.id);
      return newSession.id;
    }

    /** `addMessage` at instant `now`. */
    method AddMessage(sessionId: Id, messageData: MessageData, freshId: Id, now: int)
      modifies this
      ensures sessions == WithMessage(old(sessions), sessionId, NewMessage(messageData, freshId, now))
      ensures currentSessionId == old(currentSessionId) && currentEnergyLevel == old(currentEnergyLevel)
    {
      var newMessage := NewMessage(messageData, freshId, now);
      sessions := WithMessage(sessions, sessionId, newMessage);
    }

    /** `updateMessage`. */
    method UpdateMessage(sessionId: Id, messageId: Id, updates: MessagePatch)
      modifies this
      ensures sessions == MessageUpdated(old(sessions), sessionId, messageId, updates)
      ensures currentSessionId == old(currentSessionId) && currentEnergyLevel == old(currentEnergyLevel)
    {
      sessions := MessageUpdated(sessions, sessionId, messageId, updates);
    }

    /** `setCurrentSession`. */
    method SetCurrentSession(sessionId: Option<Id>)
      modifies this
      ensures currentSessionId == sessionId
      ensures sessions == old(sessions) && currentEnergyLevel == old(currentEnergyLevel)
    {
      currentSessionId := sessionId;
    }

    /** `setEnergyLevel`: records the level, then, when a session id is set
        (a non-empty one), in that session's context too. */
    method SetEnergyLevel(level: EnergyState)
      modifies this
      ensures currentEnergyLevel == level && currentSessionId == old(currentSessionId)
      ensures IsSet(currentSessionId) ==> sessions == EnergyRecorded(old(sessions), currentSessionId.value, level)
      ensures !IsSet(currentSessionId) ==> sessions == old(sessions)
    {
      currentEnergyLevel := level;
      var currentId := currentSessionId;
      if IsSet(currentId) {
        sessions := EnergyRecorded(sessions, currentId.value, level);
      }
    }

    /** `clearSession`. */
    method ClearSession(sessionId: Id)
      modifies this
      ensures sessions == Cleared(old(sessions), sessionId)
      ensures currentSessionId == old(currentSessionId) && currentEnergyLevel == old(currentEnergyLevel)
    {
      sessions := Cleared(sessions, sessionId);
    }

    /** `deleteSession`: the session goes, and so does the current id when it
        was that session's; afterwards the deleted session is never current. */
    method DeleteSession(sessionId: Id)
      modifies this
      ensures sessions == SessionsWithout(old(sessions), sessionId)
      ensures currentSessionId == if old(currentSessionId) == Some(sessionId) then None else old(currentSessionId)
      ensures currentEnergyLevel == old(currentEnergyLevel)
      ensures GetCurrentSession().Some? ==> GetCurrentSession().value.id != sessionId
    {
      sessions := SessionsWithout(sessions, sessionId);
      if currentSessionId == Some(sessionId) {
        currentSessionId := None;
      }
    }

    /** `getRecentMessages(limit)`: nothing without a current session,
        otherwise the end of its conversation. */
    function GetRecentMessages(limit: int): (r: seq<ChatMessage>)
      reads this
      ensures GetCurrentSession().None? ==> r == []
      ensures GetCurrentSession().Some? ==> r == RecentMessages(GetCurrentSession().value.messages, limit)
    {
      match GetCurrentSession()
      case None => []
      case Some(session) => RecentMessages(session.messages, limit)
    }
  }
}
