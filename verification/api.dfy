/**
 * The remote service as the bot sees it: the bodies it posts, the answers it reads, and how a
 * failed post is classified.
 */
module Api {
  import opened Wrappers
  import opened Text
  import opened Js

  /** A server-assigned conversation identifier; a usable one is never empty. */
  type ThreadId = s: string | s != "" witness "thread"

  const ChatTitle := "New Chat"
  const UserRole := "user"
  const DatasetId := "34a725bc-3374-4042-9c37-c2076a8e4c2b"
  const ChatModel := "llama-3.3-70b-instruct"
  const ChatLanguage := "english"
  /** The text of the transport error that is taken as a probable delivery. */
  const StreamAborted := "stream has been aborted"

  /** The body of `GET /points`. */
  datatype Points = Points(points: int, referralPoints: int, totalPoints: int)

  /**
   * The quota check allows a send, that is `!points || points.total_points <= 0` is false:
   * the points are known and their total is at least one.
   */
  function CanSpend(p: Option<Points>): (allowed: bool)
    ensures allowed ==> p.Some? && p.value.totalPoints >= 1
    ensures p.Some? && p.value.totalPoints >= 1 ==> allowed
  {
    !(p.None? || p.value.totalPoints <= 0)
  }

  /**
   * The answer to `GET /threads`: the request failed, or it succeeded and its `data` field
   * held a list of threads (None when that field was missing or falsy).
   */
  datatype ThreadListing = ListFailed | Listed(data: Option<seq<ThreadId>>)

  /**
   * `getThreads`: the listed thread ids; a failed request and a missing `data` field both
   * give the empty list.
   */
  function ListedThreads(l: ThreadListing): (ids: seq<ThreadId>)
    ensures l.ListFailed? ==> ids == []
    ensures l.Listed? && l.data.None? ==> ids == []
    ensures l.Listed? && l.data.Some? ==> ids == l.data.value
  {
    match l
    case ListFailed => []
    case Listed(data) => if data.Some? then data.value else []
  }

  datatype ChatMessage = ChatMessage(role: string, content: string)

  /** The body of `POST /threads`; `sources` is `null` (None). */
  datatype ThreadRequest = ThreadRequest(
    title: string, messages: seq<ChatMessage>, sources: Option<seq<string>>,
    id: string, datasetId: string, createdAt: string)

  /** The body of `POST /chat`; `sources` is the empty list. */
  datatype ChatRequest = ChatRequest(
    id: ThreadId, aiId: JsValue, title: string, messages: seq<ChatMessage>,
    sources: Option<seq<string>>, model: string, createdAt: string, language: string)

  /** The fixed part of every create-thread body: one user message, fixed title and dataset. */
  predicate IsThreadRequest(r: ThreadRequest) {
    r.title == ChatTitle && |r.messages| == 1 && r.messages[0].role == UserRole
    && r.sources == None && r.datasetId == DatasetId
  }

  /** The fixed part of every chat body: one user message, fixed title, model and language. */
  predicate IsChatRequest(r: ChatRequest) {
    r.title == ChatTitle && |r.messages| == 1 && r.messages[0].role == UserRole
    && r.sources == Some([]) && r.model == ChatModel && r.language == ChatLanguage
  }

  /**
   * The body `createThread` posts: the opening message as the single user message, with a
   * freshly generated id and the current time supplied by the caller.
   */
  function NewThreadRequest(opening: string, uuid: string, createdAt: string): (r: ThreadRequest)
    ensures IsThreadRequest(r)
    ensures r.messages[0].content == opening && r.id == uuid && r.createdAt == createdAt
  {
    ThreadRequest(ChatTitle, [ChatMessage(UserRole, opening)], None, uuid, DatasetId, createdAt)
  }

  /** The body `sendMessage` posts: the message into the given thread for the given assistant. */
  function NewChatRequest(threadId: ThreadId, aiId: JsValue, message: string, createdAt: string): (r: ChatRequest)
    ensures IsChatRequest(r)
    ensures r.id == threadId && r.aiId == aiId && r.messages[0].content == message
    ensures r.createdAt == createdAt
  {
    ChatRequest(threadId, aiId, ChatTitle, [ChatMessage(UserRole, message)], Some([]),
                ChatModel, createdAt, ChatLanguage)
  }

  /** A create-thread body is determined by its opening message, id and time. */
  lemma ThreadRequestDetermined(r: ThreadRequest)
    requires IsThreadRequest(r)
    ensures NewThreadRequest(r.messages[0].content, r.id, r.createdAt) == r
  {
    assert r.messages == [ChatMessage(UserRole, r.messages[0].content)];
  }

  /** A chat body is determined by its thread, assistant, message and time. */
  lemma ChatRequestDetermined(r: ChatRequest)
    requires IsChatRequest(r)
    ensures NewChatRequest(r.id, r.aiId, r.messages[0].content, r.createdAt) == r
  {
    assert r.messages == [ChatMessage(UserRole, r.messages[0].content)];
  }

  /** What the transport reports for `POST /chat`: accepted, or an error with its message. */
  datatype PostOutcome = Posted | PostRejected(errorMessage: string)

  /**
   * How `sendMessage` reads a post: delivered, presumed delivered (the stream-abort error),
   * or failed.
   */
  datatype SendVerdict = Delivered | PresumedDelivered | Failed

  /**
   * The classification in `sendMessage`: an accepted post is delivered; an error whose
   * message contains the stream-abort text is presumed delivered; any other error is a
   * failure.
   */
  function Classify(o: PostOutcome): (v: SendVerdict)
    ensures v == Delivered <==> o.Posted?
    ensures v == PresumedDelivered <==>
      o.PostRejected? && exists i :: OccursAt(o.errorMessage, StreamAborted, i)
    ensures v == Failed <==>
      o.PostRejected? && forall i :: !OccursAt(o.errorMessage, StreamAborted, i)
  {
    match o
    case Posted => Delivered
    case PostRejected(message) =>
      if Contains(message, StreamAborted) then PresumedDelivered else Failed
  }

  /**
   * `sendMessage`'s boolean answer: true for an accepted post and for an error that reports
   * the aborted stream, false for any other error.
   */
  function SendSucceeded(o: PostOutcome): (sent: bool)
    ensures sent <==> o.Posted? || exists i :: OccursAt(o.errorMessage, StreamAborted, i)
  {
    Classify(o) != Failed
  }

  /** An error that reports the aborted stream somewhere in its message counts as sent. */
  lemma {:induction false} AbortedStreamCountsAsSent(prefix: string, suffix: string)
    ensures Classify(PostRejected(prefix + StreamAborted + suffix)) == PresumedDelivered
  {
    var m := prefix + StreamAborted + suffix;
    assert m[|prefix|..|prefix| + |StreamAborted|] == StreamAborted;
    assert OccursAt(m, StreamAborted, |prefix|);
  }
}
