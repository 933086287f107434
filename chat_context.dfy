/**
 * The chat session store: a list of sessions, newest first, and the id of the
 * selected one. Only one blank chat (no title, no messages) is kept: asking
 * for a new chat selects that blank chat when there is one. Every change to
 * the list is written back to storage.
 */
module ChatContext {
  import opened Wrappers
  import opened Strings
  import opened AiService

  /** The selection and the list, as one value. */
  datatype ChatState = ChatState(sessions: seq<Session>, currentSessionId: Option<string>)

  /** `!s.title && s.messages.length === 0`. */
  predicate IsBlank(s: Session) {
    s.title == "" && s.messages == []
  }

  /** `s.id === currentSessionId`: never true while nothing is selected. */
  predicate HasId(s: Session, id: Option<string>) {
    id == Some(s.id)
  }

  predicate UniqueIds(sessions: seq<Session>) {
    forall i, j :: 0 <= i < j < |sessions| ==> sessions[i].id != sessions[j].id
  }

  /** A chat as `createNewChat` makes it: the id is `Date.now().toString()`. */
  function NewSession(now: int): (s: Session)
    ensures IsBlank(s) && s.id == IntToString(now) && s.createdAt == now
  {
    Session(IntToString(now), "", [], now)
  }

  /** The index of the first blank session (`sessions.find` on blankness). */
  function FirstBlank(sessions: seq<Session>): (r: Option<nat>)
    ensures r.None? <==> forall i :: 0 <= i < |sessions| ==> !IsBlank(sessions[i])
    ensures r.Some? ==> r.value < |sessions| && IsBlank(sessions[r.value])
                        && forall j :: 0 <= j < r.value ==> !IsBlank(sessions[j])
  {
    if sessions == [] then None
    else if IsBlank(sessions[0]) then Some(0)
    else match FirstBlank(sessions[1..])
      case None => None
      case Some(k) => Some(k + 1)
  }

  /** The index of the first session carrying `id` (`sessions.find` on the id). */
  function FindById(sessions: seq<Session>, id: Option<string>): (r: Option<nat>)
    ensures r.None? <==> forall i :: 0 <= i < |sessions| ==> !HasId(sessions[i], id)
    ensures r.Some? ==> r.value < |sessions| && HasId(sessions[r.value], id)
                        && forall j :: 0 <= j < r.value ==> !HasId(sessions[j], id)
  {
    if sessions == [] then None
    else if HasId(sessions[0], id) then Some(0)
    else match FindById(sessions[1..], id)
      case None => None
      case Some(k) => Some(k + 1)
  }

  /** `currentSession`: the first session with the selected id, or none when no session has it. */
  function CurrentOf(st: ChatState): (r: Option<Session>)
    ensures r.None? <==> forall i :: 0 <= i < |st.sessions| ==> !HasId(st.sessions[i], st.currentSessionId)
    ensures r.Some? ==> r.value == st.sessions[FindById(st.sessions, st.currentSessionId).value]
    ensures r.Some? ==> r.value in st.sessions && HasId(r.value, st.currentSessionId)
  {
    match FindById(st.sessions, st.currentSessionId)
    case None => None
    case Some(k) => Some(st.sessions[k])
  }

  function BlankCount(sessions: seq<Session>): nat {
    if sessions == [] then 0 else (if IsBlank(sessions[0]) then 1 else 0) + BlankCount(sessions[1..])
  }

  /** `prev.map(...)` in `addMessage`: every session with the selected id gets `message` at the end. */
  function AppendWhere(sessions: seq<Session>, id: Option<string>, message: Message): (r: seq<Session>)
    ensures |r| == |sessions|
    ensures forall i :: 0 <= i < |sessions| ==>
              && r[i].id == sessions[i].id && r[i].title == sessions[i].title && r[i].createdAt == sessions[i].createdAt
              && r[i].messages == (if HasId(sessions[i], id) then sessions[i].messages + [message] else sessions[i].messages)
  {
    if sessions == [] then []
    else
      var s := sessions[0];
      [if HasId(s, id) then s.(messages := s.messages + [message]) else s] + AppendWhere(sessions[1..], id, message)
  }

  /** `prev.map(...)` in `setSessionTitle`: every session with the selected id gets the new title. */
  function RetitleWhere(sessions: seq<Session>, id: Option<string>, title: string): (r: seq<Session>)
    ensures |r| == |sessions|
    ensures forall i :: 0 <= i < |sessions| ==>
              && r[i].id == sessions[i].id && r[i].messages == sessions[i].messages && r[i].createdAt == sessions[i].createdAt
              && r[i].title == (if HasId(sessions[i], id) then title else sessions[i].title)
  {
    if sessions == [] then []
    else
      var s := sessions[0];
      [if HasId(s, id) then s.(title := title) else s] + RetitleWhere(sessions[1..], id, title)
  }

  /** `prev.filter((s) => s.id !== id)`. */
  function Without(sessions: seq<Session>, id: string): (r: seq<Session>)
    ensures |r| <= |sessions|
    ensures forall s :: s in r <==> s in sessions && s.id != id
  {
    if sessions == [] then []
    else (if sessions[0].id != id then [sessions[0]] else []) + Without(sessions[1..], id)
  }

  // ---------------------------------------------------------------------------
  // The operations, as transitions of the state

  /** `loadSessions`: a stored list replaces the (empty) list and its first session is selected. */
  function AfterLoad(st: ChatState, stored: Option<seq<Session>>): (r: ChatState)
    ensures stored.None? ==> r == st
    ensures stored.Some? ==> r.sessions == stored.value
    ensures stored.Some? && stored.value != [] ==> r.currentSessionId == Some(stored.value[0].id)
    ensures stored.Some? && stored.value == [] ==> r.currentSessionId == st.currentSessionId
  {
    match stored
    case None => st
    case Some(parsed) => ChatState(parsed, if parsed != [] then Some(parsed[0].id) else st.currentSessionId)
  }

  /**
   * `createNewChat`: selects the first blank chat when there is one; otherwise
   * puts a new blank chat in front and selects it. (The source's second check,
   * "the current chat is blank", cannot fire then: see `CurrentBlankMeansSomeBlank`.)
   */
  function AfterCreateNewChat(st: ChatState, now: int): (r: ChatState)
    ensures FirstBlank(st.sessions).Some? ==>
              r == ChatState(st.sessions, Some(st.sessions[FirstBlank(st.sessions).value].id))
    ensures FirstBlank(st.sessions).None? ==>
              r == ChatState([NewSession(now)] + st.sessions, Some(IntToString(now)))
  {
    match FirstBlank(st.sessions)
    case Some(k) => st.(currentSessionId := Some(st.sessions[k].id))
    case None =>
      var s := NewSession(now);
      ChatState([s] + st.sessions, Some(s.id))
  }

  /** `selectChat(id)`: no check that a session with that id exists. */
  function AfterSelectChat(st: ChatState, id: string): (r: ChatState)
    ensures r.sessions == st.sessions && r.currentSessionId == Some(id)
  {
    st.(currentSessionId := Some(id))
  }

  function AfterAddMessage(st: ChatState, message: Message): (r: ChatState)
    ensures r.currentSessionId == st.currentSessionId
  {
    st.(sessions := AppendWhere(st.sessions, st.currentSessionId, message))
  }

  function AfterSetSessionTitle(st: ChatState, title: string): (r: ChatState)
    ensures r.currentSessionId == st.currentSessionId
  {
    st.(sessions := RetitleWhere(st.sessions, st.currentSessionId, title))
  }

  /**
   * `deleteChat(id)`: removes every session with that id; when it was the
   * selected one, selects the first survivor, or, if none is left, a new blank chat.
   */
  function AfterDeleteChat(st: ChatState, id: string, now: int): (r: ChatState)
    ensures st.currentSessionId != Some(id) ==> r == ChatState(Without(st.sessions, id), st.currentSessionId)
    ensures st.currentSessionId == Some(id) && Without(st.sessions, id) != [] ==>
              r == ChatState(Without(st.sessions, id), Some(Without(st.sessions, id)[0].id))
    ensures st.currentSessionId == Some(id) && Without(st.sessions, id) == [] ==>
              r == ChatState([NewSession(now)], Some(IntToString(now)))
  {
    var filtered := Without(st.sessions, id);
    if Some(id) == st.currentSessionId then
      if filtered != [] then ChatState(filtered, Some(filtered[0].id))
      else
        var s := NewSession(now);
        ChatState([s], Some(s.id))
    else ChatState(filtered, st.currentSessionId)
  }

  // ---------------------------------------------------------------------------
  // Properties of the transitions

  /** A blank current session is itself a blank session, so the second check of `createNewChat` never fires. */
  lemma CurrentBlankMeansSomeBlank(st: ChatState)
    requires CurrentOf(st).Some? && IsBlank(CurrentOf(st).value)
    ensures FirstBlank(st.sessions).Some?
  {
    var k := FindById(st.sessions, st.currentSessionId).value;
    assert IsBlank(st.sessions[k]);
  }

  lemma {:induction false} BlankCountZero(sessions: seq<Session>)
    ensures BlankCount(sessions) == 0 <==> FirstBlank(sessions).None?
  {
    if sessions != [] {
      BlankCountZero(sessions[1..]);
    }
  }

  /** After `createNewChat` there is a blank chat and the number of blank chats is `max(before, 1)`. */
  lemma CreateNewChatCountsBlanks(st: ChatState, now: int)
    ensures FirstBlank(AfterCreateNewChat(st, now).sessions).Some?
    ensures BlankCount(AfterCreateNewChat(st, now).sessions) == if BlankCount(st.sessions) == 0 then 1 else BlankCount(st.sessions)
  {
    BlankCountZero(st.sessions);
    var r := AfterCreateNewChat(st, now);
    if FirstBlank(st.sessions).None? {
      assert r.sessions[1..] == st.sessions;
    }
  }

  /** A second `createNewChat`, whatever its clock, changes nothing. */
  lemma CreateNewChatIdempotent(st: ChatState, now: int, later: int)
    ensures AfterCreateNewChat(AfterCreateNewChat(st, now), later) == AfterCreateNewChat(st, now)
  {
    var r := AfterCreateNewChat(st, now);
    if FirstBlank(st.sessions).None? {
      assert r.sessions[0] == NewSession(now);
      assert FirstBlank(r.sessions) == Some(0);
    }
  }

  /** With distinct ids, the chat selected by `createNewChat` is a blank one. */
  lemma CreateNewChatSelectsBlank(st: ChatState, now: int)
    requires UniqueIds(st.sessions)
    ensures CurrentOf(AfterCreateNewChat(st, now)).Some?
    ensures IsBlank(CurrentOf(AfterCreateNewChat(st, now)).value)
  {
    var r := AfterCreateNewChat(st, now);
    match FirstBlank(st.sessions)
    case Some(k) =>
      assert HasId(r.sessions[k], r.currentSessionId);
      var f := FindById(r.sessions, r.currentSessionId).value;
      assert f == k;
    case None =>
      assert HasId(r.sessions[0], r.currentSessionId);
  }

  /** `addMessage` with no session carrying the selected id leaves the list as it was. */
  lemma {:induction false} AppendWithoutMatch(sessions: seq<Session>, id: Option<string>, message: Message)
    requires forall i :: 0 <= i < |sessions| ==> !HasId(sessions[i], id)
    ensures AppendWhere(sessions, id, message) == sessions
  {
    if sessions != [] {
      AppendWithoutMatch(sessions[1..], id, message);
    }
  }

  /** The selected session after `addMessage` is the one before, with `message` at the end of its messages. */
  lemma AddMessageExtendsCurrent(st: ChatState, message: Message)
    ensures var before := CurrentOf(st);
            var after := CurrentOf(AfterAddMessage(st, message));
            && (after.Some? <==> before.Some?)
            && (after.Some? ==> after.value == before.value.(messages := before.value.messages + [message]))
  {
    var r := AfterAddMessage(st, message);
    SameIdsSameFind(st.sessions, r.sessions, st.currentSessionId);
  }

  /** `addMessage` never creates a blank chat. */
  lemma {:induction false} AppendKeepsBlankCount(sessions: seq<Session>, id: Option<string>, message: Message)
    ensures BlankCount(AppendWhere(sessions, id, message)) <= BlankCount(sessions)
  {
    if sessions != [] {
      AppendKeepsBlankCount(sessions[1..], id, message);
      assert AppendWhere(sessions, id, message)[1..] == AppendWhere(sessions[1..], id, message);
    }
  }

  /** The selected session after `setSessionTitle` is the one before with the new title. */
  lemma SetSessionTitleRenamesCurrent(st: ChatState, title: string)
    ensures var before := CurrentOf(st);
            var after := CurrentOf(AfterSetSessionTitle(st, title));
            && (after.Some? <==> before.Some?)
            && (after.Some? ==> after.value == before.value.(title := title))
  {
    var r := AfterSetSessionTitle(st, title);
    SameIdsSameFind(st.sessions, r.sessions, st.currentSessionId);
  }

  /** Giving a chat a non-empty title never creates a blank chat. */
  lemma {:induction false} RetitleKeepsBlankCount(sessions: seq<Session>, id: Option<string>, title: string)
    requires title != ""
    ensures BlankCount(RetitleWhere(sessions, id, title)) <= BlankCount(sessions)
  {
    if sessions != [] {
      RetitleKeepsBlankCount(sessions[1..], id, title);
      assert RetitleWhere(sessions, id, title)[1..] == RetitleWhere(sessions[1..], id, title);
    }
  }

  /** The lookup by id only looks at ids. */
  lemma {:induction false} SameIdsSameFind(a: seq<Session>, b: seq<Session>, id: Option<string>)
    requires |a| == |b| && forall i :: 0 <= i < |a| ==> a[i].id == b[i].id
    ensures FindById(a, id) == FindById(b, id)
  {
    if a != [] {
      SameIdsSameFind(a[1..], b[1..], id);
    }
  }

  /** Filtering keeps the survivors in order: it distributes over concatenation. */
  lemma {:induction false} WithoutConcat(a: seq<Session>, b: seq<Session>, id: string)
    ensures Without(a + b, id) == Without(a, id) + Without(b, id)
  {
    if a == [] {
      assert a + b == b;
    } else {
      var head := if a[0].id != id then [a[0]] else [];
      assert (a + b)[0] == a[0];
      assert (a + b)[1..] == a[1..] + b;
      WithoutConcat(a[1..], b, id);
      assert Without(a + b, id) == head + (Without(a[1..], id) + Without(b, id));
    }
  }

  /** Deleting an id nobody carries changes nothing, and deleting twice is deleting once. */
  lemma {:induction false} WithoutAbsent(sessions: seq<Session>, id: string)
    requires forall i :: 0 <= i < |sessions| ==> sessions[i].id != id
    ensures Without(sessions, id) == sessions
  {
    if sessions != [] {
      WithoutAbsent(sessions[1..], id);
    }
  }

  lemma WithoutIdempotent(sessions: seq<Session>, id: string)
    ensures Without(Without(sessions, id), id) == Without(sessions, id)
  {
    var once := Without(sessions, id);
    assert forall i :: 0 <= i < |once| ==> once[i] in once;
    WithoutAbsent(once, id);
  }

  lemma {:induction false} WithoutKeepsUniqueIds(sessions: seq<Session>, id: string)
    requires UniqueIds(sessions)
    ensures UniqueIds(Without(sessions, id))
  {
    if sessions != [] {
      var rest := sessions[1..];
      assert UniqueIds(rest) by {
        forall i, j | 0 <= i < j < |rest|
          ensures rest[i].id != rest[j].id
        {
          assert rest[i] == sessions[i + 1] && rest[j] == sessions[j + 1];
        }
      }
      WithoutKeepsUniqueIds(rest, id);
      var tail := Without(rest, id);
      forall x | x in tail
        ensures x.id != sessions[0].id
      {
        var k :| 0 <= k < |rest| && rest[k] == x;
        assert sessions[k + 1] == x;
      }
    }
  }

  /** Deleting the selected chat always leaves a selected session behind. */
  lemma DeleteCurrentSelectsSurvivor(st: ChatState, id: string, now: int)
    requires st.currentSessionId == Some(id)
    ensures CurrentOf(AfterDeleteChat(st, id, now)).Some?
    ensures CurrentOf(AfterDeleteChat(st, id, now)).value.id != id || Without(st.sessions, id) == []
  {
    var r := AfterDeleteChat(st, id, now);
    assert HasId(r.sessions[0], r.currentSessionId);
    assert FindById(r.sessions, r.currentSessionId) == Some(0);
    var filtered := Without(st.sessions, id);
    if filtered != [] {
      assert filtered[0] in filtered;
    }
  }

  /**
   * `createNewChat` keeps the sessions distinct by id when the clock reading it
   * would use as a new id is not already an id.
   */
  lemma CreateNewChatKeepsUniqueIds(st: ChatState, now: int)
    requires UniqueIds(st.sessions)
    requires forall s :: s in st.sessions ==> s.id != IntToString(now)
    ensures UniqueIds(AfterCreateNewChat(st, now).sessions)
  {
    if FirstBlank(st.sessions).None? {
      var r := [NewSession(now)] + st.sessions;
      forall i, j | 0 <= i < j < |r|
        ensures r[i].id != r[j].id
      {
        assert r[j] == st.sessions[j - 1];
        if i > 0 {
          assert r[i] == st.sessions[i - 1];
        }
      }
    }
  }

  /** The sessions that remain after `deleteChat` are distinct by id when they were before. */
  lemma DeleteChatKeepsUniqueIds(st: ChatState, id: string, now: int)
    requires UniqueIds(st.sessions)
    ensures UniqueIds(AfterDeleteChat(st, id, now).sessions)
  {
    WithoutKeepsUniqueIds(st.sessions, id);
  }

  // ---------------------------------------------------------------------------
  // The store

  /**
   * The provider's state. `persisted` is what storage holds under
   * `@bible_ai_chats`; `None` when nothing usable is stored. The save effect
   * runs once on mount and again after each change of `sessions`, and writes
   * the list as it then is.
   */
  class ChatStore {
    var sessions: seq<Session>
    var currentSessionId: Option<string>
    var persisted: Option<seq<Session>>

    function State(): ChatState
      reads this
    {
      ChatState(sessions, currentSessionId)
    }

    /** A fresh provider: no sessions, nothing selected, storage as left by an earlier run. */
    constructor(stored: Option<seq<Session>>)
      ensures sessions == [] && currentSessionId == None && persisted == stored
    {
      sessions := [];
      currentSessionId := None;
      persisted := stored;
    }

    function CurrentSession(): (r: Option<Session>)
      reads this
      ensures r.Some? ==> r.value in sessions && HasId(r.value, currentSessionId)
      ensures r.None? ==> forall s :: s in sessions ==> Some(s.id) != currentSessionId
      ensures r.Some? <==> FindById(sessions, currentSessionId).Some?
      ensures r.Some? ==> r.value == sessions[FindById(sessions, currentSessionId).value]
    {
      CurrentOf(State())
    }

    /**
     * Start-up: `loadSessions`, where `persisted` stands for the parsed stored
     * list, together with the save effect. The read is issued before the
     * effect's mount run writes the empty list, so it sees the earlier
     * contents; a parsed list then runs the effect again. Either way storage
     * ends up holding the sessions, even when nothing usable was stored.
     */
    method LoadSessions()
      modifies this
      ensures State() == AfterLoad(old(State()), old(persisted))
      ensures persisted == Some(sessions)
    {
      var stored := persisted;
      persisted := Some(sessions);
      if stored.Some? {
        var parsed := stored.value;
        sessions := parsed;
        if |parsed| > 0 {
          currentSessionId := Some(parsed[0].id);
        }
        persisted := Some(sessions);
      }
    }

    /** `createNewChat`, where `now` is the value `Date.now()` gives. */
    method CreateNewChat(now: int)
      modifies this
      ensures State() == AfterCreateNewChat(old(State()), now)
      ensures persisted == if sessions == old(sessions) then old(persisted) else Some(sessions)
    {
      var blank := FirstBlank(sessions);
      if blank.Some? {
        currentSessionId := Some(sessions[blank.value].id);
        return;
      }
      var current := CurrentSession();
      if current.Some? && |current.value.messages| == 0 && current.value.title == "" {
        assert false;
        return;
      }
      var newSession := Session(IntToString(now), "", [], now);
      sessions := [newSession] + sessions;
      currentSessionId := Some(newSession.id);
      persisted := Some(sessions);
    }

    method SelectChat(id: string)
      modifies this
      ensures State() == AfterSelectChat(old(State()), id)
      ensures persisted == old(persisted)
    {
      currentSessionId := Some(id);
    }

    method AddMessage(message: Message)
      modifies this
      ensures State() == AfterAddMessage(old(State()), message)
      ensures persisted == Some(sessions)
    {
      sessions := AppendWhere(sessions, currentSessionId, message);
      persisted := Some(sessions);
    }

    method SetSessionTitle(title: string)
      modifies this
      ensures State() == AfterSetSessionTitle(old(State()), title)
      ensures persisted == Some(sessions)
    {
      sessions := RetitleWhere(sessions, currentSessionId, title);
      persisted := Some(sessions);
    }

    /** `deleteChat(id)`, where `now` is the value `Date.now()` gives. */
    method DeleteChat(id: string, now: int)
      modifies this
      ensures State() == AfterDeleteChat(old(State()), id, now)
      ensures persisted == Some(sessions)
    {
      var filtered := Without(sessions, id);
      if Some(id) == currentSessionId {
        if |filtered| > 0 {
          currentSessionId := Some(filtered[0].id);
        } else {
          var newSession := Session(IntToString(now), "", [], now);
          currentSessionId := Some(newSession.id);
          filtered := [newSession];
        }
      }
      sessions := filtered;
      persisted := Some(sessions);
    }

    /** `clearStorage`: the stored list goes; the sessions in memory stay. */
    method ClearStorage()
      modifies this
      ensures State() == old(State()) && persisted == None
    {
      persisted := None;
    }
  }
}
