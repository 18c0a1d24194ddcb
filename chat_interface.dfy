/**
 * The conversation state of the ChatInterface component and the handlers
 * that change it: push events from the socket (`new_message`,
 * `session_cleared`), the optimistic send, history loading, session
 * creation and clearing.
 *
 * Every awaited request is split into an issue step and a completion step
 * (success or failure); the completions may be interleaved with push events
 * in any order. The pure functions below give the state after each step;
 * the class `Chat` performs the same steps by updating its fields.
 */
module ChatInterface {
  import opened Base
  import opened JsText
  import opened ChatTypes

  /** The six state values of the component. */
  datatype ChatState = ChatState(
    currentSessionId: Option<string>,
    messages: seq<Message>,
    loading: bool,
    sending: bool,
    sources: seq<Source>,
    showSources: bool)

  /** The body of a successful send response; `sources` may be absent. */
  datatype SendResponse = SendResponse(sources: Option<seq<Source>>)

  /** The body of a successful history response; `messages` may be absent. */
  datatype HistoryResponse = HistoryResponse(messages: Option<seq<Message>>)

  /** The request the session effect issues when `currentSessionId` changes. */
  datatype Request = FetchHistory(sessionId: string) | CreateSession

  /** JavaScript truthiness of an optional string (`null`, `undefined` and "" are falsy). */
  predicate Truthy(o: Option<string>) {
    o.Some? && o.value != ""
  }

  function Initial(sessionIdProp: Option<string>): ChatState {
    ChatState(sessionIdProp, [], false, false, [], false)
  }

  // ---------------------------------------------------------------------
  // List updaters

  /** `prev.some((msg) => msg.id === id)`. */
  function HasId(ms: seq<Message>, id: string): (b: bool)
    ensures b <==> id in Ids(ms)
    ensures b <==> exists i :: 0 <= i < |ms| && ms[i].id == id
  {
    if ms == [] then false
    else
      assert ms == [ms[0]] + ms[1..];
      IdsAppend([ms[0]], ms[1..]);
      ms[0].id == id || HasId(ms[1..], id)
  }

  /** The `new_message` list updater: keep the list when the id is known, else append. */
  function AppendIfNew(ms: seq<Message>, m: Message): (r: seq<Message>)
    ensures Ids(r) == Ids(ms) + {m.id}
    ensures |r| == if m.id in Ids(ms) then |ms| else |ms| + 1
    ensures r[..|ms|] == ms
    ensures |r| > |ms| ==> r[|ms|] == m
    ensures DistinctIds(ms) ==> DistinctIds(r)
  {
    if HasId(ms, m.id) then
      ms
    else
      IdsAppend(ms, [m]);
      assert Ids([m]) == {m.id};
      ms + [m]
  }

  /** `prev.filter((msg) => msg.id !== id)`. */
  function RemoveById(ms: seq<Message>, id: string): (r: seq<Message>)
    ensures |r| <= |ms|
    ensures forall i :: 0 <= i < |r| ==> r[i] in ms && r[i].id != id
    ensures Ids(r) == Ids(ms) - {id}
  {
    if ms == [] then []
    else
      var head := if ms[0].id == id then [] else [ms[0]];
      var rest := RemoveById(ms[1..], id);
      IdsUncons(ms);
      IdsAppend(head, rest);
      assert Ids(head) == if ms[0].id == id then {} else {ms[0].id};
      assert forall x :: x in ms[1..] ==> x in ms;
      head + rest
  }

  /** Filtering distributes over concatenation. */
  lemma {:induction false} RemoveByIdAppend(a: seq<Message>, b: seq<Message>, id: string)
    ensures RemoveById(a + b, id) == RemoveById(a, id) + RemoveById(b, id)
  {
    if a != [] {
      var head := if a[0].id == id then [] else [a[0]];
      assert (a + b)[0] == a[0] && (a + b)[1..] == a[1..] + b;
      assert RemoveById(a + b, id) == head + RemoveById(a[1..] + b, id);
      assert RemoveById(a, id) == head + RemoveById(a[1..], id);
      RemoveByIdAppend(a[1..], b, id);
    } else {
      assert a + b == b;
    }
  }

  /** Removing an id that is not there changes nothing. */
  lemma {:induction false} RemoveByIdAbsent(ms: seq<Message>, id: string)
    requires id !in Ids(ms)
    ensures RemoveById(ms, id) == ms
  {
    if ms != [] {
      assert ms[0] in ms;
      assert Ids(ms[1..]) <= Ids(ms) by {
        forall x | x in Ids(ms[1..]) ensures x in Ids(ms) {
          var m :| m in ms[1..] && m.id == x;
          assert m in ms;
        }
      }
      RemoveByIdAbsent(ms[1..], id);
    }
  }

  /**
   * Rolling back an entry whose id is unique removes exactly that entry and
   * keeps every other entry in order.
   */
  lemma RemoveUniqueEntry(ms: seq<Message>, k: nat)
    requires DistinctIds(ms) && k < |ms|
    ensures RemoveById(ms, ms[k].id) == ms[..k] + ms[k + 1..]
  {
    UniqueIdElsewhere(ms, k);
    RemoveSplice(ms[..k], ms[k], ms[k + 1..]);
    SplitAt(ms, k);
  }

  lemma SplitAt(ms: seq<Message>, k: nat)
    requires k < |ms|
    ensures ms[..k] + [ms[k]] + ms[k + 1..] == ms
  {
  }

  /** Removing the id of an entry that no other entry shares leaves the entries around it. */
  lemma RemoveSplice(pre: seq<Message>, m: Message, post: seq<Message>)
    requires m.id !in Ids(pre) && m.id !in Ids(post)
    ensures RemoveById(pre + [m] + post, m.id) == pre + post
  {
    var id := m.id;
    RemoveByIdAppend(pre + [m], post, id);
    RemoveByIdAppend(pre, [m], id);
    RemoveByIdAbsent(pre, id);
    RemoveByIdAbsent(post, id);
    RemoveOwnEntry(m);
    assert RemoveById(pre + [m], id) == pre;
  }

  lemma RemoveOwnEntry(m: Message)
    ensures RemoveById([m], m.id) == []
  {
    assert [m][1..] == [];
  }

  /** With distinct ids, the id at position k occurs nowhere before or after it. */
  lemma UniqueIdElsewhere(ms: seq<Message>, k: nat)
    requires DistinctIds(ms) && k < |ms|
    ensures ms[k].id !in Ids(ms[..k]) && ms[k].id !in Ids(ms[k + 1..])
  {

  }

  /** `messages.filter((msg) => msg.role === "assistant").pop()`. */
  function LastAssistant(ms: seq<Message>): (r: Option<Message>)
    ensures r.None? <==> forall i :: 0 <= i < |ms| ==> ms[i].role != AssistantRole
    ensures r.Some? ==> r.value in ms && r.value.role == AssistantRole
  {
    if ms == [] then None
    else if ms[|ms| - 1].role == AssistantRole then Some(ms[|ms| - 1])
    else
      var init := ms[..|ms| - 1];
      assert forall i :: 0 <= i < |init| ==> init[i] == ms[i];
      LastAssistant(init)
  }

  /** The message chosen is the assistant message that no other assistant message follows. */
  lemma {:induction false} LastAssistantIsLast(before: seq<Message>, m: Message, after: seq<Message>)
    requires m.role == AssistantRole
    requires forall i :: 0 <= i < |after| ==> after[i].role != AssistantRole
    ensures LastAssistant(before + [m] + after) == Some(m)
    decreases |after|
  {
    var ms := before + [m] + after;
    if after != [] {
      var init := after[..|after| - 1];
      DropLast(before + [m], after);
      LastAssistantIsLast(before, m, init);
    } else {
      assert ms[|ms| - 1] == m;
    }
  }

  lemma DropLast(front: seq<Message>, back: seq<Message>)
    requires back != []
    ensures var ms := front + back;
      ms[..|ms| - 1] == front + back[..|back| - 1] && ms[|ms| - 1] == back[|back| - 1]
  {
  }

  // ---------------------------------------------------------------------
  // Handlers as state transitions

  /** The `new_message` socket handler. */
  function PushNewMessage(s: ChatState, m: Message): ChatState {
    var s1 := s.(messages := AppendIfNew(s.messages, m));
    if m.role == AssistantRole && m.sources.Some? then
      s1.(sources := m.sources.value,
          showSources := if |m.sources.value| > 0 then true else s.showSources)
    else s1
  }

  /** A run of `new_message` events, in delivery order. */
  function PushAll(s: ChatState, ms: seq<Message>): ChatState
    decreases |ms|
  {
    if ms == [] then s else PushAll(PushNewMessage(s, ms[0]), ms[1..])
  }

  /** The `session_cleared` socket handler. */
  function PushSessionCleared(s: ChatState): ChatState {
    s.(messages := [], sources := [])
  }

  /** The guard at the top of `handleSendMessage`. */
  predicate SendAccepted(s: ChatState, text: string) {
    Trim(text) != [] && !s.sending
  }

  /** The optimistic user message; it has no `sources` field. */
  function UserMessage(id: string, text: string, now: string): Message {
    Message(id, UserRole, text, now, None)
  }

  /** `handleSendMessage` up to the awaited request: append the user message, mark sending. */
  function StartSend(s: ChatState, text: string, freshId: string, now: string): ChatState {
    if SendAccepted(s, text) then
      s.(messages := s.messages + [UserMessage(freshId, text, now)], sending := true)
    else s
  }

  /** The send request resolved: update the sources side-channel only. */
  function SendSucceeded(s: ChatState, response: SendResponse): ChatState {
    var src := response.sources.GetOr([]);
    s.(sources := src,
       showSources := if |src| > 0 then true else s.showSources,
       sending := false)
  }

  /** The send request threw: roll back the optimistic message by its id. */
  function SendFailed(s: ChatState, userId: string): ChatState {
    s.(messages := RemoveById(s.messages, userId), sending := false)
  }

  /** Which request the session effect issues for the current session id. */
  function SessionRequest(s: ChatState): Request {
    if Truthy(s.currentSessionId) then FetchHistory(s.currentSessionId.value) else CreateSession
  }

  /** Issuing either request sets `loading`. */
  function IssueRequest(s: ChatState): ChatState {
    s.(loading := true)
  }

  /** The history request resolved. No check that the session is still the current one. */
  function HistoryLoaded(s: ChatState, h: HistoryResponse): ChatState {
    var ms := h.messages.GetOr([]);
    var last := LastAssistant(ms);
    var s1 := s.(messages := ms, loading := false);
    if last.Some? && last.value.sources.Some? then s1.(sources := last.value.sources.value) else s1
  }

  /** The session was created: switch to it with an empty conversation. */
  function SessionCreated(s: ChatState, newId: string): ChatState {
    ChatState(Some(newId), [], false, s.sending, [], false)
  }

  /** A history or create request threw: only `loading` is reset. */
  function RequestFailed(s: ChatState): ChatState {
    s.(loading := false)
  }

  /** The clear-history request resolved. A failed clear changes nothing. */
  function ClearSucceeded(s: ChatState): ChatState {
    s.(messages := [], sources := [], showSources := false)
  }

  /** The sessionId prop changed: adopt it when it is truthy and different. */
  function SessionPropChanged(s: ChatState, prop: Option<string>): ChatState {
    if Truthy(prop) && prop != s.currentSessionId then s.(currentSessionId := prop) else s
  }

  /** The close button of the sources panel. */
  function SourcesPanelClosed(s: ChatState): ChatState {
    s.(showSources := false)
  }

  /** The sources panel is rendered. */
  predicate SourcesPanelVisible(s: ChatState) {
    s.showSources && |s.sources| > 0
  }

  // ---------------------------------------------------------------------
  // Properties

  /** A `new_message` whose id is known leaves the list alone; otherwise it lands at the end. */
  lemma NewMessageDedup(s: ChatState, m: Message)
    ensures m.id in Ids(s.messages) ==> PushNewMessage(s, m).messages == s.messages
    ensures m.id !in Ids(s.messages) ==> PushNewMessage(s, m).messages == s.messages + [m]
  {
    var r := PushNewMessage(s, m).messages;
    if m.id !in Ids(s.messages) {
      assert r == r[..|s.messages|] + [r[|s.messages|]];
    }
  }

  /**
   * The sources side-channel on `new_message`: an assistant message carrying
   * a `sources` field replaces `sources` with it (even when empty) and opens
   * the panel only when it is non-empty; nothing ever closes the panel here;
   * any other message leaves both alone.
   */
  lemma NewMessageSources(s: ChatState, m: Message)
    ensures var t := PushNewMessage(s, m);
      && (m.role == AssistantRole && m.sources.Some? ==>
            t.sources == m.sources.value
            && t.showSources == (s.showSources || |m.sources.value| > 0))
      && (!(m.role == AssistantRole && m.sources.Some?) ==>
            t.sources == s.sources && t.showSources == s.showSources)
      && (s.showSources ==> t.showSources)
      && t.sending == s.sending && t.loading == s.loading
      && t.currentSessionId == s.currentSessionId
  {
  }

  /** Any run of pushes keeps ids distinct, keeps earlier entries as a prefix and adds exactly the new ids. */
  lemma {:induction false} PushAllDedup(s: ChatState, ms: seq<Message>)
    requires DistinctIds(s.messages)
    ensures var t := PushAll(s, ms);
      && DistinctIds(t.messages)
      && |s.messages| <= |t.messages|
      && t.messages[..|s.messages|] == s.messages
      && Ids(t.messages) == Ids(s.messages) + Ids(ms)
    decreases |ms|
  {
    if ms == [] {
      assert Ids(ms) == {};
    } else {
      var m := ms[0];
      var s1 := PushNewMessage(s, m);
      assert s1.messages == AppendIfNew(s.messages, m);
      PushAllDedup(s1, ms[1..]);
      IdsUncons(ms);
      var t := PushAll(s1, ms[1..]);
      assert t == PushAll(s, ms);
      PrefixOfPrefix(s.messages, s1.messages, t.messages);
    }
  }

  lemma PrefixOfPrefix(a: seq<Message>, b: seq<Message>, c: seq<Message>)
    requires |a| <= |b| <= |c| && b[..|a|] == a && c[..|b|] == b
    ensures c[..|a|] == a
  {
    assert c[..|a|] == c[..|b|][..|a|];
  }

  lemma IdsUncons(ms: seq<Message>)
    requires ms != []
    ensures Ids(ms) == {ms[0].id} + Ids(ms[1..])
  {
    assert ms == [ms[0]] + ms[1..];
    IdsAppend([ms[0]], ms[1..]);
    assert Ids([ms[0]]) == {ms[0].id};
  }

  /** With distinct ids, the store holds exactly one entry per id. */
  lemma {:induction false} DistinctCount(ms: seq<Message>)
    requires DistinctIds(ms)
    ensures |Ids(ms)| == |ms|
  {
    if ms != [] {
      var init := ms[..|ms| - 1];
      assert ms == init + [ms[|ms| - 1]];
      IdsAppend(init, [ms[|ms| - 1]]);
      assert Ids([ms[|ms| - 1]]) == {ms[|ms| - 1].id};
      UniqueIdElsewhere(ms, |ms| - 1);
      DistinctCount(init);
    }
  }

  /** Pushes never touch `sending`, so an in-flight send stays in flight. */
  lemma {:induction false} PushAllKeepsFlags(s: ChatState, ms: seq<Message>)
    ensures PushAll(s, ms).sending == s.sending
    ensures PushAll(s, ms).loading == s.loading
    ensures PushAll(s, ms).currentSessionId == s.currentSessionId
    decreases |ms|
  {
    if ms != [] { PushAllKeepsFlags(PushNewMessage(s, ms[0]), ms[1..]); }
  }

  /** The messages a run of pushes leaves behind depend only on the list before it. */
  lemma {:induction false} PushAllMessagesOnly(s: ChatState, s': ChatState, ms: seq<Message>)
    requires s.messages == s'.messages
    ensures PushAll(s, ms).messages == PushAll(s', ms).messages
    decreases |ms|
  {
    if ms != [] {
      PushAllMessagesOnly(PushNewMessage(s, ms[0]), PushNewMessage(s', ms[0]), ms[1..]);
    }
  }

  /**
   * Pushes commute with rolling back an id that no pushed message carries:
   * pushing onto a list and then removing the id gives what pushing onto the
   * list without it gives.
   */
  lemma {:induction false} PushAllCommutesWithRemove(s: ChatState, s': ChatState, id: string,
                                                     ms: seq<Message>)
    requires RemoveById(s'.messages, id) == s.messages
    requires id !in Ids(ms)
    ensures RemoveById(PushAll(s', ms).messages, id) == PushAll(s, ms).messages
    decreases |ms|
  {
    if ms != [] {
      var m := ms[0];
      IdsUncons(ms);
      var t, t' := PushNewMessage(s, m), PushNewMessage(s', m);
      RemoveAfterAppend(s'.messages, s.messages, m, id);
      PushAllCommutesWithRemove(t, t', id, ms[1..]);
    }
  }

  /** One push commutes with removing an id other than the pushed message's. */
  lemma RemoveAfterAppend(before: seq<Message>, removed: seq<Message>, m: Message, id: string)
    requires RemoveById(before, id) == removed && m.id != id
    ensures RemoveById(AppendIfNew(before, m), id) == AppendIfNew(removed, m)
  {
    if m.id !in Ids(removed) {
      RemoveByIdAppend(before, [m], id);
      RemoveOtherEntry(m, id);
    }
  }

  lemma RemoveOtherEntry(m: Message, id: string)
    requires m.id != id
    ensures RemoveById([m], id) == [m]
  {
    assert [m][1..] == [];
  }

  /**
   * Optimistic rollback: a send that is accepted and then fails, with any run
   * of pushes (not reusing the fresh id) delivered in between, leaves the
   * message list exactly as if the send had never happened.
   */
  lemma OptimisticRollback(s: ChatState, text: string, freshId: string, now: string,
                           pushes: seq<Message>)
    requires SendAccepted(s, text)
    requires freshId !in Ids(s.messages) && freshId !in Ids(pushes)
    ensures var t := SendFailed(PushAll(StartSend(s, text, freshId, now), pushes), freshId);
      t.messages == PushAll(s, pushes).messages && !t.sending
  {
    var u := UserMessage(freshId, text, now);
    var s1 := StartSend(s, text, freshId, now);
    RemoveByIdAppend(s.messages, [u], freshId);
    RemoveByIdAbsent(s.messages, freshId);
    assert RemoveById([u], freshId) == [];
    var s0 := s1.(messages := s.messages);
    PushAllCommutesWithRemove(s0, s1, freshId, pushes);
    PushAllMessagesOnly(s0, s, pushes);
    PushAllKeepsFlags(s1, pushes);
  }

  /** A successful send adds no message and updates sources as the response says. */
  lemma SendSuccessEffect(s: ChatState, text: string, freshId: string, now: string, resp: SendResponse)
    requires SendAccepted(s, text)
    ensures var t := SendSucceeded(StartSend(s, text, freshId, now), resp);
      && t.messages == s.messages + [UserMessage(freshId, text, now)]
      && t.sources == resp.sources.GetOr([])
      && t.showSources == (s.showSources || (resp.sources.Some? && |resp.sources.value| > 0))
      && !t.sending
  {
  }

  /** A blank text or a send already in flight makes `handleSendMessage` a no-op. */
  lemma SendRejected(s: ChatState, text: string, freshId: string, now: string)
    requires AllSpace(text) || s.sending
    ensures StartSend(s, text, freshId, now) == s
  {
  }

  /** A successful clear hides the panel, and clearing twice is clearing once. */
  lemma ClearIdempotent(s: ChatState)
    ensures ClearSucceeded(ClearSucceeded(s)) == ClearSucceeded(s)
    ensures !SourcesPanelVisible(ClearSucceeded(s))
  {
  }

  /**
   * History load replaces the messages and ends loading; it never touches
   * `showSources` or `currentSessionId`, and with no assistant message in the
   * response it keeps `sources`.
   */
  lemma HistorySources(s: ChatState, h: HistoryResponse)
    ensures var t := HistoryLoaded(s, h);
      && t.messages == h.messages.GetOr([])
      && t.showSources == s.showSources
      && t.currentSessionId == s.currentSessionId
      && !t.loading
      && ((forall m :: m in h.messages.GetOr([]) ==> m.role != AssistantRole) ==> t.sources == s.sources)
  {
  }

  /**
   * Only the last assistant message of the history is inspected: its
   * `sources` field, when present, becomes `sources` (even `[]`); when it has
   * none, `sources` is kept, whatever earlier assistant messages carry.
   */
  lemma HistorySourcesFromLast(s: ChatState, before: seq<Message>, m: Message, after: seq<Message>)
    requires m.role == AssistantRole
    requires forall i :: 0 <= i < |after| ==> after[i].role != AssistantRole
    ensures var t := HistoryLoaded(s, HistoryResponse(Some(before + [m] + after)));
      && (m.sources.Some? ==> t.sources == m.sources.value)
      && (m.sources.None? ==> t.sources == s.sources)
  {
    LastAssistantIsLast(before, m, after);
  }

  /**
   * Switching sessions through the `sessionId` prop clears neither `sources`
   * nor `showSources`: when the new session's history has no assistant
   * message, the previous session's sources panel stays on screen.
   */
  lemma PanelSurvivesSwitch(s: ChatState, prop: Option<string>, h: HistoryResponse)
    requires SourcesPanelVisible(s)
    requires Truthy(prop) && prop != s.currentSessionId
    requires forall m :: m in h.messages.GetOr([]) ==> m.role != AssistantRole
    ensures var t := HistoryLoaded(IssueRequest(SessionPropChanged(s, prop)), h);
      && t.currentSessionId == prop
      && t.sources == s.sources
      && SourcesPanelVisible(t)
  {
    HistorySources(IssueRequest(SessionPropChanged(s, prop)), h);
  }

  /**
   * History responses are not matched to the session they were requested
   * for: one that resolves after a new session was created still replaces
   * the new session's (empty) conversation.
   */
  lemma StaleHistoryApplied(s: ChatState, newId: string, h: HistoryResponse)
    requires h.messages.Some? && h.messages.value != []
    ensures var t := HistoryLoaded(SessionCreated(s, newId), h);
      t.currentSessionId == Some(newId) && t.messages == h.messages.value
  {
  }

  /** An assistant message with `sources: []` after one with sources empties the panel. */
  lemma EmptySourcesHidePanel(s: ChatState, a: Message, b: Message)
    requires a.role == AssistantRole && a.sources == Some([Source("A", "http://a.x", None)])
    requires b.role == AssistantRole && b.sources == Some([])
    ensures var t := PushNewMessage(PushNewMessage(s, a), b);
      t.showSources && t.sources == [] && !SourcesPanelVisible(t)
  {
  }

  // ---------------------------------------------------------------------
  // The component

  /** The component's state hooks; each method is one handler or one completion. */
  class Chat {
    var currentSessionId: Option<string>
    var messages: seq<Message>
    var loading: bool
    var sending: bool
    var sources: seq<Source>
    var showSources: bool

    function State(): ChatState
      reads this
    {
      ChatState(currentSessionId, messages, loading, sending, sources, showSources)
    }

    constructor (sessionIdProp: Option<string>)
      ensures State() == Initial(sessionIdProp)
    {
      currentSessionId := sessionIdProp;
      messages, loading, sending := [], false, false;
      sources, showSources := [], false;
    }

    /** The `new_message` socket handler. */
    method OnNewMessage(m: Message)
      modifies this
      ensures State() == PushNewMessage(old(State()), m)
    {
      var known := HasId(messages, m.id);
      if !known {
        messages := messages + [m];
      }
      if m.role == AssistantRole && m.sources.Some? {
        sources := m.sources.value;
        if |m.sources.value| > 0 {
          showSources := true;
        }
      }
    }

    /** The `session_cleared` socket handler. */
    method OnSessionCleared()
      modifies this
      ensures State() == PushSessionCleared(old(State()))
    {
      messages := [];
      sources := [];
    }

    /**
     * `handleSendMessage` up to its await; `freshId` stands for the generated
     * uuid and `now` for the ISO timestamp.
     */
    method HandleSendMessage(text: string, freshId: string, now: string) returns (accepted: bool)
      modifies this
      ensures accepted == SendAccepted(old(State()), text)
      ensures State() == StartSend(old(State()), text, freshId, now)
    {
      if Trim(text) == [] || sending {
        return false;
      }
      messages := messages + [UserMessage(freshId, text, now)];
      sending := true;
      accepted := true;
    }

    /** The send request resolved. */
    method OnSendSucceeded(response: SendResponse)
      modifies this
      ensures State() == SendSucceeded(old(State()), response)
    {
      sources := response.sources.GetOr([]);
      if response.sources.Some? && |response.sources.value| > 0 {
        showSources := true;
      }
      sending := false;
    }

    /** The send request for the optimistic message `userId` threw. */
    method OnSendFailed(userId: string)
      modifies this
      ensures State() == SendFailed(old(State()), userId)
    {
      messages := RemoveById(messages, userId);
      sending := false;
    }

    /** The effect on the `sessionId` prop. */
    method OnSessionProp(prop: Option<string>)
      modifies this
      ensures State() == SessionPropChanged(old(State()), prop)
    {
      if Truthy(prop) && prop != currentSessionId {
        currentSessionId := prop;
      }
    }

    /** The effect on `currentSessionId`: load its history, or create a session when there is none. */
    method SessionEffect() returns (request: Request)
      modifies this
      ensures request == SessionRequest(old(State()))
      ensures State() == IssueRequest(old(State()))
    {
      if Truthy(currentSessionId) {
        request := FetchHistory(currentSessionId.value);
      } else {
        request := CreateSession;
      }
      loading := true;
    }

    /** `loadChatHistory` after its await succeeded. */
    method OnHistoryLoaded(h: HistoryResponse)
      modifies this
      ensures State() == HistoryLoaded(old(State()), h)
    {
      messages := h.messages.GetOr([]);
      var last := LastAssistant(h.messages.GetOr([]));
      if last.Some? && last.value.sources.Some? {
        sources := last.value.sources.value;
      }
      loading := false;
    }

    /** `handleNewChat`: start `createNewSession` whatever the current session is. */
    method HandleNewChat() returns (request: Request)
      modifies this
      ensures request == CreateSession
      ensures State() == IssueRequest(old(State()))
    {
      request := CreateSession;
      loading := true;
    }

    /**
     * `createNewSession` after its await succeeded; returns the id handed to
     * the `onNewSession` callback.
     */
    method OnSessionCreated(newId: string) returns (announced: string)
      modifies this
      ensures announced == newId
      ensures State() == SessionCreated(old(State()), newId)
    {
      announced := newId;
      currentSessionId := Some(newId);
      messages := [];
      sources := [];
      showSources := false;
      loading := false;
    }

    /** `loadChatHistory` or `createNewSession` after its await threw. */
    method OnRequestFailed()
      modifies this
      ensures State() == RequestFailed(old(State()))
    {
      loading := false;
    }

    /** `handleClearChat` after its await succeeded. */
    method OnClearSucceeded()
      modifies this
      ensures State() == ClearSucceeded(old(State()))
    {
      messages := [];
      sources := [];
      showSources := false;
    }

    /** The sources panel's close button. */
    method CloseSourcesPanel()
      modifies this
      ensures State() == SourcesPanelClosed(old(State()))
    {
      showSources := false;
    }
  }
}
