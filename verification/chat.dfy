/** The conversation session manager of src/services/hooks/useChat.ts.

    The hook holds the message log, the session id (`sessionIdRef.current`)
    and the in-flight flag. `sendMessage` is split at its one suspension
    point: `BeginSend` is everything before `await sendChatMessage(...)`, and
    `Settle` is everything after it, given the response. `ClearChat` may run
    between the two. Fresh uuids and clock readings are parameters. */
module Chat {
  import opened Types
  import Text
  import Api

  /** The greeting a new hook starts with. */
  const Greeting: string :=
    "Hello! I'm AgriAssist, your AI-powered crop health advisor. Upload images of your crops and describe any issues you're seeing \U{2014} I'll diagnose diseases, pests, nutrient deficiencies, and provide treatment recommendations.\n\nTip: For best results, upload clear, well-lit photos of affected leaves, stems, or fruit."

  /** The greeting `clearChat` installs: the same text without the tip. */
  const ClearedGreeting: string :=
    "Hello! I'm AgriAssist, your AI-powered crop health advisor. Upload images of your crops and describe any issues you're seeing \U{2014} I'll diagnose diseases, pests, nutrient deficiencies, and provide treatment recommendations."

  const NoResponse: string := "No response received."

  /** The warning sign, its emoji variation selector, and a space. */
  const WarningPrefix: string := "\U{26A0}\U{FE0F} "

  datatype ChatState = ChatState(messages: seq<Message>, sessionId: string, isLoading: bool)

  /** What `uuidv4()` and `new Date()` return during one `sendMessage`. */
  datatype Fresh = Fresh(userId: string, loadingId: string, userTime: int, loadingTime: int)

  /** The arguments `sendMessage` hands to `sendChatMessage`. */
  datatype ChatCall = ChatCall(message: string, images: seq<FileHandle>, sessionId: string)

  /** An exchange awaiting its response: the placeholder's id and the call made. */
  datatype Pending = Pending(loadingId: string, call: ChatCall)

  datatype Begun = Begun(state: ChatState, pending: Option<Pending>)

  /** The state a mounted hook starts in. */
  function Initial(sessionId: string, greetingId: string, now: int): (st: ChatState)
    ensures |st.messages| == 1
    ensures st.messages[0].role == Assistant && st.messages[0].content == Greeting
    ensures !Loading(st.messages[0]) && !st.isLoading
    ensures st.sessionId == sessionId
  {
    ChatState([Message(greetingId, Assistant, Greeting, Undefined, now, Undefined)], sessionId, false)
  }

  /** The negation of the early return of `sendMessage`: some text survives
      trimming, or at least one image is attached. */
  predicate HasPayload(content: string, images: Nullish<seq<UploadedImage>>) {
    Text.Trim(content) != [] || (images.Defined? && images.value != [])
  }

  /** The synchronous part of `sendMessage`: append the user message and the
      loading placeholder, raise the flag, and emit the call. The content is
      stored and sent untrimmed. */
  function BeginSend(st: ChatState, content: string, images: Nullish<seq<UploadedImage>>, minted: Fresh): (b: Begun)
    ensures b.pending.Some? <==> HasPayload(content, images)
    ensures b.pending.None? ==> b.state == st
    ensures b.pending.Some? ==>
              && |b.state.messages| == |st.messages| + 2
              && b.state.messages[..|st.messages|] == st.messages
              && b.state.isLoading
              && b.state.sessionId == st.sessionId
    ensures b.pending.Some? ==>
              var user := b.state.messages[|st.messages|];
              && user.id == minted.userId && user.role == User && user.content == content
              && user.images == images && !Loading(user)
    ensures b.pending.Some? ==>
              var placeholder := b.state.messages[|st.messages| + 1];
              && placeholder.id == minted.loadingId && placeholder.role == Assistant
              && placeholder.content == "" && Loading(placeholder)
    ensures b.pending.Some? ==>
              && b.pending.value.loadingId == minted.loadingId
              && b.pending.value.call.message == content
              && b.pending.value.call.images == Files(images.Or([]))
              && b.pending.value.call.sessionId == st.sessionId
  {
    if !HasPayload(content, images) then Begun(st, None)
    else
      var user := Message(minted.userId, User, content, images, minted.userTime, Undefined);
      var placeholder := Message(minted.loadingId, Assistant, "", Undefined, minted.loadingTime, Defined(true));
      Begun(ChatState(st.messages + [user, placeholder], st.sessionId, true),
            Some(Pending(minted.loadingId, ChatCall(content, Files(images.Or([])), st.sessionId))))
  }

  /** A possibly absent string in a template literal. */
  function Interpolated(s: Nullish<string>): string {
    match s
    case Defined(v) => v
    case Undefined => "undefined"
    case Null => "null"
  }

  /** The text the placeholder receives. */
  function SettledContent(response: ApiResponse<Api.ChatReply>): (c: string)
    ensures response.success && response.data.Defined? && response.data.value.reply.Defined? ==>
              c == response.data.value.reply.value
    ensures response.success && !(response.data.Defined? && response.data.value.reply.Defined?) ==>
              c == NoResponse
    ensures !response.success ==> |c| >= |WarningPrefix| && c[..|WarningPrefix|] == WarningPrefix
    ensures !response.success && response.error.Defined? ==> c[|WarningPrefix|..] == response.error.value
  {
    if response.success then
      match response.data
      case Defined(d) => d.reply.Or(NoResponse)
      case _ => NoResponse
    else WarningPrefix + Interpolated(response.error)
  }

  /** The session id after a response: the server's, when the response
      succeeded and carries a non-empty one. */
  function AdoptedSession(current: string, response: ApiResponse<Api.ChatReply>): (id: string)
    ensures id != current ==> response.success && id != ""
    ensures response.success && response.data.Defined? && Present(response.data.value.sessionId) ==>
              id == response.data.value.sessionId.value
    ensures !(response.data.Defined? && Present(response.data.value.sessionId)) ==> id == current
  {
    if response.success && response.data.Defined? && Present(response.data.value.sessionId)
    then response.data.value.sessionId.value
    else current
  }

  /** The placeholder `m` with its final content. */
  function Resolved(m: Message, content: string): Message {
    m.(isLoading := Defined(false), content := content)
  }

  /** `prev.map((msg) => msg.id === loadingId ? { ...msg, isLoading: false, content } : msg)` */
  function ResolveById(log: seq<Message>, loadingId: string, content: string): (r: seq<Message>)
    ensures |r| == |log|
    ensures forall k :: 0 <= k < |log| && log[k].id != loadingId ==> r[k] == log[k]
    ensures forall k :: 0 <= k < |log| && log[k].id == loadingId ==> r[k] == Resolved(log[k], content)
  {
    if log == [] then []
    else
      [if log[0].id == loadingId then Resolved(log[0], content) else log[0]]
      + ResolveById(log[1..], loadingId, content)
  }

  /** The asynchronous part of `sendMessage`, applied to whatever the log is
      when the response arrives: possibly adopt the server's session id,
      rewrite the entry with the placeholder's id, and lower the flag. */
  function Settle(st: ChatState, loadingId: string, response: ApiResponse<Api.ChatReply>): (st': ChatState)
    ensures |st'.messages| == |st.messages|
    ensures forall k :: 0 <= k < |st.messages| && st.messages[k].id != loadingId ==>
              st'.messages[k] == st.messages[k]
    ensures forall k :: 0 <= k < |st.messages| && st.messages[k].id == loadingId ==>
              && st'.messages[k].id == loadingId
              && st'.messages[k].role == st.messages[k].role
              && st'.messages[k].timestamp == st.messages[k].timestamp
              && st'.messages[k].images == st.messages[k].images
              && st'.messages[k].isLoading == Defined(false)
              && st'.messages[k].content == SettledContent(response)
    ensures !IdOccurs(st.messages, loadingId) ==> st'.messages == st.messages
    ensures st'.sessionId == AdoptedSession(st.sessionId, response)
    ensures !st'.isLoading
  {
    ChatState(ResolveById(st.messages, loadingId, SettledContent(response)),
              AdoptedSession(st.sessionId, response),
              false)
  }

  /** `clearChat`: a single minted greeting and a minted session id; the
      in-flight flag is left as it is. */
  function ClearChat(st: ChatState, sessionId: string, greetingId: string, now: int): (st': ChatState)
    ensures |st'.messages| == 1
    ensures st'.messages[0].id == greetingId && st'.messages[0].role == Assistant
    ensures st'.messages[0].content == ClearedGreeting && !Loading(st'.messages[0])
    ensures st'.sessionId == sessionId
    ensures st'.isLoading == st.isLoading
  {
    ChatState([Message(greetingId, Assistant, ClearedGreeting, Undefined, now, Undefined)], sessionId, st.isLoading)
  }

  // ─── Properties across steps ────────────────────────────────────────────────

  /** A response that arrives after `clearChat` finds no placeholder and
      leaves the log alone (it still lowers the flag). */
  lemma SettleAfterClear(st: ChatState, sessionId: string, greetingId: string, now: int,
                         loadingId: string, response: ApiResponse<Api.ChatReply>)
    requires greetingId != loadingId
    ensures var cleared := ClearChat(st, sessionId, greetingId, now);
            Settle(cleared, loadingId, response).messages == cleared.messages
  {
    var cleared := ClearChat(st, sessionId, greetingId, now);
    assert !IdOccurs(cleared.messages, loadingId);
  }

  /** ... but such a late response still replaces the minted session id with
      the old conversation's, when it carries one. */
  lemma StaleResponseAdoptsSession(st: ChatState, sessionId: string, greetingId: string, now: int,
                                   loadingId: string, response: ApiResponse<Api.ChatReply>)
    requires response.success && response.data.Defined? && Present(response.data.value.sessionId)
    ensures Settle(ClearChat(st, sessionId, greetingId, now), loadingId, response).sessionId ==
            response.data.value.sessionId.value
  {
  }

  /** Sending and then settling, with nothing in between, appends the user
      message and the resolved placeholder and changes nothing else. */
  lemma SendThenSettle(st: ChatState, content: string, images: Nullish<seq<UploadedImage>>, minted: Fresh,
                       response: ApiResponse<Api.ChatReply>)
    requires HasPayload(content, images)
    requires minted.userId != minted.loadingId && !IdOccurs(st.messages, minted.loadingId)
    ensures var b := BeginSend(st, content, images, minted);
            var after := Settle(b.state, minted.loadingId, response);
            && after.messages[..|st.messages|] == st.messages
            && after.messages == b.state.messages[|st.messages| + 1 := Resolved(b.state.messages[|st.messages| + 1], SettledContent(response))]
            && !Loading(after.messages[|st.messages| + 1])
            && !after.isLoading
  {
    var b := BeginSend(st, content, images, minted);
    var log := b.state.messages;
    var n := |st.messages|;
    forall j | 0 <= j < |log| && j != n + 1
      ensures log[j].id != log[n + 1].id
    {
      if j < n {
        assert log[j] == log[..n][j] == st.messages[j];
      }
    }
    SettleRewritesOnly(b.state, n + 1, response);
    var after := Settle(b.state, minted.loadingId, response).messages;
    assert after[..n] == log[..n];
  }

  /** The session id the server assigned is the one the next send uses. */
  lemma AdoptedSessionIsUsedNext(st: ChatState, loadingId: string, response: ApiResponse<Api.ChatReply>,
                                 content: string, images: Nullish<seq<UploadedImage>>, minted: Fresh)
    requires response.success && response.data.Defined? && Present(response.data.value.sessionId)
    requires HasPayload(content, images)
    ensures BeginSend(Settle(st, loadingId, response), content, images, minted).pending.value.call.sessionId ==
            response.data.value.sessionId.value
  {
  }

  /** Beginning a send with minted ids keeps every id in the log distinct, so a
      later `Settle` rewrites exactly one entry. */
  lemma BeginSendKeepsIdsUnique(st: ChatState, content: string, images: Nullish<seq<UploadedImage>>, minted: Fresh)
    requires UniqueMessageIds(st.messages)
    requires minted.userId != minted.loadingId
    requires !IdOccurs(st.messages, minted.userId) && !IdOccurs(st.messages, minted.loadingId)
    ensures UniqueMessageIds(BeginSend(st, content, images, minted).state.messages)
  {
    var b := BeginSend(st, content, images, minted);
    if b.pending.Some? {
      var n := |st.messages|;
      forall i, j | 0 <= i < j < |b.state.messages|
        ensures b.state.messages[i].id != b.state.messages[j].id
      {
        if j < n {
          assert b.state.messages[i] == st.messages[i] && b.state.messages[j] == st.messages[j];
        } else if i < n {
          assert b.state.messages[i] == st.messages[i];
        }
      }
    }
  }

  /** With distinct ids, settling rewrites exactly the placeholder's slot. */
  lemma SettleRewritesOneEntry(st: ChatState, k: nat, response: ApiResponse<Api.ChatReply>)
    requires UniqueMessageIds(st.messages) && k < |st.messages|
    ensures var id := st.messages[k].id;
            Settle(st, id, response).messages == st.messages[k := Resolved(st.messages[k], SettledContent(response))]
  {
    SettleRewritesOnly(st, k, response);
  }

  /** Settling by the id of an entry no other entry shares rewrites exactly that entry. */
  lemma SettleRewritesOnly(st: ChatState, k: nat, response: ApiResponse<Api.ChatReply>)
    requires k < |st.messages|
    requires forall j :: 0 <= j < |st.messages| && j != k ==> st.messages[j].id != st.messages[k].id
    ensures var id := st.messages[k].id;
            Settle(st, id, response).messages == st.messages[k := Resolved(st.messages[k], SettledContent(response))]
  {
  }

  /** `after` extends `before` and differs from it only where a loading
      placeholder was resolved: the log is append-only but for that one
      permitted rewrite. */
  predicate Evolves(before: seq<Message>, after: seq<Message>) {
    && |before| <= |after|
    && forall k :: 0 <= k < |before| ==>
         after[k] == before[k] || (Loading(before[k]) && after[k] == Resolved(before[k], after[k].content))
  }

  /** Every entry carrying `id` is a loading placeholder. */
  predicate OnlyPlaceholders(log: seq<Message>, id: string) {
    forall k :: 0 <= k < |log| && log[k].id == id ==> Loading(log[k])
  }

  lemma BeginSendEvolves(st: ChatState, content: string, images: Nullish<seq<UploadedImage>>, minted: Fresh)
    ensures Evolves(st.messages, BeginSend(st, content, images, minted).state.messages)
  {
    var b := BeginSend(st, content, images, minted);
    forall k | 0 <= k < |st.messages|
      ensures b.state.messages[k] == st.messages[k]
    {
      if b.pending.Some? {
        assert b.state.messages[..|st.messages|][k] == st.messages[k];
      }
    }
  }

  lemma SettleEvolves(st: ChatState, loadingId: string, response: ApiResponse<Api.ChatReply>)
    requires OnlyPlaceholders(st.messages, loadingId)
    ensures Evolves(st.messages, Settle(st, loadingId, response).messages)
  {
  }

  /** Right after a send, the placeholder is the only entry with its id. */
  lemma BeginSendPlaceholderAlone(st: ChatState, content: string, images: Nullish<seq<UploadedImage>>, minted: Fresh)
    requires HasPayload(content, images)
    requires minted.userId != minted.loadingId && !IdOccurs(st.messages, minted.loadingId)
    ensures OnlyPlaceholders(BeginSend(st, content, images, minted).state.messages, minted.loadingId)
  {
    var b := BeginSend(st, content, images, minted);
    forall k | 0 <= k < |b.state.messages| && b.state.messages[k].id == minted.loadingId
      ensures Loading(b.state.messages[k])
    {
      if k < |st.messages| {
        assert false;
      }
    }
  }
}
