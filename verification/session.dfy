/**
 * One account's bot (`runBot`): it adopts or creates a conversation thread, then on every
 * tick recovers a missing thread, checks the quota and, when quota remains, posts one
 * message, dropping the thread if the post fails.
 *
 * The network is not modelled: every call's outcome is a parameter, and a ghost log `calls`
 * records each call the session makes together with the outcome it received.
 */
module Session {
  import opened Wrappers
  import opened Js
  import opened Startup
  import opened Api

  /** Opening message of the thread created at start-up. */
  const OpeningMessage := "Starting a new conversation"
  /** Opening message of a thread created to replace a missing one. */
  const RecoveryMessage := "New conversation because the previous one failed"

  /** One network call of the session, with the outcome the service gave it. */
  datatype Call =
    | CheckPoints(result: Option<Points>)
    | ListThreads(listing: ThreadListing)
    | CreateThread(threadRequest: ThreadRequest, created: Option<ThreadId>)
    | SendMessage(chatRequest: ChatRequest, outcome: PostOutcome)

  /** The values taken from the outside for one tick: a generated uuid and two clock readings. */
  datatype Stamps = Stamps(uuid: string, threadCreatedAt: string, chatCreatedAt: string)

  /**
   * Everything one tick receives from outside: the answer to a create-thread call (used only
   * when there is no thread), the quota, the random message index, the transport's answer to
   * the post, and the stamps.
   */
  datatype TickEnv = TickEnv(
    created: Option<ThreadId>, points: Option<Points>, pick: nat, posted: PostOutcome,
    stamps: Stamps)

  /** Every send in the log comes right after a points check that allowed it. */
  ghost predicate SendsGuarded(calls: seq<Call>) {
    forall k :: 0 <= k < |calls| && calls[k].SendMessage? ==>
      0 < k && calls[k - 1].CheckPoints? && CanSpend(calls[k - 1].result)
  }

  /** The last call was a create that failed or a send classified as failed. */
  ghost predicate LastAttemptFailed(calls: seq<Call>) {
    calls != [] &&
    var last := calls[|calls| - 1];
    (last.CreateThread? && last.created.None?)
    || (last.SendMessage? && !SendSucceeded(last.outcome))
  }

  /** The thread a tick works with: the current one, or else the one the tick creates. */
  function Working(current: Option<ThreadId>, env: TickEnv): Option<ThreadId> {
    if current.Some? then current else env.created
  }

  /** The recovery call a tick makes first: one create when there is no thread, else none. */
  function Recovery(current: Option<ThreadId>, env: TickEnv): seq<Call> {
    if current.Some? then []
    else [CreateThread(NewThreadRequest(RecoveryMessage, env.stamps.uuid, env.stamps.threadCreatedAt),
                       env.created)]
  }

  /** What a tick does: the thread it leaves and the calls it makes, in order. */
  datatype Effect = Effect(thread: Option<ThreadId>, made: seq<Call>)

  /**
   * One tick from thread `current`: without a thread, one create, and the tick ends if it
   * fails; then a points check, and the tick ends unless the points allow a send; then one
   * post of the chosen message into the working thread, which is dropped if the post failed.
   */
  function TickEffect(aiId: JsValue, messages: seq<string>, current: Option<ThreadId>, env: TickEnv): Effect
    requires env.pick < |messages|
  {
    var recovery := Recovery(current, env);
    var w := Working(current, env);
    if w.None? then
      Effect(None, recovery)
    else if !CanSpend(env.points) then
      Effect(w, recovery + [CheckPoints(env.points)])
    else
      var request := NewChatRequest(w.value, aiId, messages[env.pick], env.stamps.chatCreatedAt);
      Effect(if SendSucceeded(env.posted) then w else None,
             recovery + [CheckPoints(env.points), SendMessage(request, env.posted)])
  }

  /** Successive ticks, each from the thread the previous one left. */
  function RunEffect(aiId: JsValue, messages: seq<string>, current: Option<ThreadId>, envs: seq<TickEnv>): Effect
    requires forall k :: 0 <= k < |envs| ==> envs[k].pick < |messages|
    decreases |envs|
  {
    if envs == [] then Effect(current, [])
    else
      var first := TickEffect(aiId, messages, current, envs[0]);
      var rest := RunEffect(aiId, messages, first.thread, envs[1..]);
      Effect(rest.thread, first.made + rest.made)
  }

  /**
   * What a tick can end in: with no thread, first exactly one create, carrying the recovery
   * message, and with a failed create nothing but that create;
   * with unknown or non-positive points, no send and the working thread kept; otherwise
   * exactly one send, into the working thread, and the thread dropped if and only if the
   * send failed. A tick that starts with a thread never creates one.
   */
  lemma TickOutcomes(aiId: JsValue, messages: seq<string>, current: Option<ThreadId>, env: TickEnv)
    requires env.pick < |messages|
    ensures var e := TickEffect(aiId, messages, current, env);
      var w := Working(current, env);
      (current.Some? ==> forall k :: 0 <= k < |e.made| ==> !e.made[k].CreateThread?)
      && (current.None? ==>
            |e.made| >= 1
            && e.made[0] == CreateThread(NewThreadRequest(RecoveryMessage, env.stamps.uuid,
                                                          env.stamps.threadCreatedAt), env.created)
            && forall k :: 1 <= k < |e.made| ==> !e.made[k].CreateThread?)
      && (w.None? ==> e.thread.None? && |e.made| == 1 && e.made[0].CreateThread?)
      && (w.Some? && !CanSpend(env.points) ==>
            e.thread == w && forall k :: 0 <= k < |e.made| ==> !e.made[k].SendMessage?)
      && (w.Some? && CanSpend(env.points) ==>
            e.made[|e.made| - 1].SendMessage? && e.made[|e.made| - 1].chatRequest.id == w.value
            && (e.thread.None? <==> Classify(env.posted) == Failed)
            && (e.thread.Some? ==> e.thread == w))
  {
  }

  /** Appending a tick's calls to a log whose sends are guarded keeps them guarded. */
  lemma TickKeepsSendsGuarded(calls: seq<Call>, aiId: JsValue, messages: seq<string>,
                              current: Option<ThreadId>, env: TickEnv)
    requires env.pick < |messages| && SendsGuarded(calls)
    ensures SendsGuarded(calls + TickEffect(aiId, messages, current, env).made)
  {
  }

  /** The failed recovery creates of successive ticks, one per tick. */
  function FailedCreates(envs: seq<TickEnv>): (made: seq<Call>)
    ensures |made| == |envs|
    ensures forall k :: 0 <= k < |made| ==> made[k].CreateThread? && made[k].created.None?
  {
    if envs == [] then []
    else
      [CreateThread(NewThreadRequest(RecoveryMessage, envs[0].stamps.uuid, envs[0].stamps.threadCreatedAt), None)]
      + FailedCreates(envs[1..])
  }

  /**
   * From no thread, ticks whose creates all fail leave no thread and make one failed
   * recovery create each, and nothing else.
   */
  lemma {:induction false} FailedCreatesRun(aiId: JsValue, messages: seq<string>, envs: seq<TickEnv>)
    requires forall k :: 0 <= k < |envs| ==> envs[k].pick < |messages| && envs[k].created.None?
    ensures RunEffect(aiId, messages, None, envs) == Effect(None, FailedCreates(envs))
    decreases |envs|
  {
    if envs != [] {
      FailedCreatesRun(aiId, messages, envs[1..]);
    }
  }

  class AccountSession {
    /** The account's assistant id, copied into every chat body. */
    const aiId: JsValue
    /** The message corpus loaded at start-up. */
    const messages: seq<string>
    /** `currentThreadId`: the conversation the session posts into, if any. */
    var threadId: Option<ThreadId>
    /** Every network call made so far, with its outcome. */
    ghost var calls: seq<Call>

    /**
     * The corpus is non-empty, every send followed a positive points check, and once started
     * the session has no thread exactly when its last thread or send attempt failed.
     */
    ghost predicate Valid()
      reads this
    {
      |messages| > 0 && SendsGuarded(calls)
      && (calls == [] ==> threadId.None?)
      && (calls != [] ==> (threadId.None? <==> LastAttemptFailed(calls)))
    }

    /** The session before start-up: no thread and no calls yet. */
    constructor (aiId: JsValue, messages: seq<string>)
      requires messages != []
      ensures Valid() && this.aiId == aiId && this.messages == messages
      ensures threadId.None? && calls == []
    {
      this.aiId := aiId;
      this.messages := messages;
      threadId := None;
      calls := [];
    }

    /**
     * Start-up: check the points (the answer is only logged), list the threads and adopt the
     * first one; with no listed thread (a failed listing counts as none) create one, and stay
     * without a thread if that fails.
     */
    method Init(points: Option<Points>, listing: ThreadListing, created: Option<ThreadId>,
                uuid: string, createdAt: string)
      requires Valid() && calls == []
      modifies this
      ensures Valid() && calls != []
      ensures ListedThreads(listing) != [] ==>
        threadId == Some(ListedThreads(listing)[0])
        && calls == [CheckPoints(points), ListThreads(listing)]
      ensures ListedThreads(listing) == [] ==>
        threadId == created
        && calls == [CheckPoints(points), ListThreads(listing),
                     CreateThread(NewThreadRequest(OpeningMessage, uuid, createdAt), created)]
    {
      calls := calls + [CheckPoints(points)];
      var threads := ListedThreads(listing);
      calls := calls + [ListThreads(listing)];
      if threads != [] {
        threadId := Some(threads[0]);
      } else {
        var request := NewThreadRequest(OpeningMessage, uuid, createdAt);
        calls := calls + [CreateThread(request, created)];
        if created.Some? {
          threadId := created;
        }
      }
    }

    /**
     * One tick. With no thread, create one and end the tick if that fails. Then check the
     * points and end the tick unless they are known and positive. Then post one message from
     * the corpus into the thread, and drop the thread if the post is classified as failed.
     */
    method Tick(env: TickEnv)
      requires Valid() && calls != [] && env.pick < |messages|
      modifies this
      ensures Valid() && calls != []
      ensures threadId == TickEffect(aiId, messages, old(threadId), env).thread
      ensures calls == old(calls) + TickEffect(aiId, messages, old(threadId), env).made
    {
      if threadId.None? {
        var request := NewThreadRequest(RecoveryMessage, env.stamps.uuid, env.stamps.threadCreatedAt);
        calls := calls + [CreateThread(request, env.created)];
        if env.created.None? {
          return;
        }
        threadId := env.created;
      }
      calls := calls + [CheckPoints(env.points)];
      if !CanSpend(env.points) {
        return;
      }
      var message := RandomMessage(messages, env.pick);
      var request := NewChatRequest(threadId.value, aiId, message, env.stamps.chatCreatedAt);
      calls := calls + [SendMessage(request, env.posted)];
      if !SendSucceeded(env.posted) {
        threadId := None;
      }
      TickKeepsSendsGuarded(old(calls), aiId, messages, old(threadId), env);
    }

    /**
     * The interval timer: ticks one after another, each with its own outside inputs, each
     * starting from the thread the previous one left.
     */
    method RunTicks(envs: seq<TickEnv>)
      requires Valid() && calls != []
      requires forall k :: 0 <= k < |envs| ==> envs[k].pick < |messages|
      modifies this
      ensures Valid() && calls != []
      ensures threadId == RunEffect(aiId, messages, old(threadId), envs).thread
      ensures calls == old(calls) + RunEffect(aiId, messages, old(threadId), envs).made
      ensures old(threadId).None? && (forall k :: 0 <= k < |envs| ==> envs[k].created.None?) ==>
        threadId.None? && calls == old(calls) + FailedCreates(envs)
      decreases |envs|
    {
      if envs != [] {
        Tick(envs[0]);
        RunTicks(envs[1..]);
      }
      if old(threadId).None? && (forall k :: 0 <= k < |envs| ==> envs[k].created.None?) {
        FailedCreatesRun(aiId, messages, envs);
      }
    }
  }

  /**
   * An account with one listed thread and quota left: the first tick posts into that thread,
   * and so does the next.
   */
  method ExistingThreadIsReused(aiId: JsValue, messages: seq<string>, t: ThreadId, quota: Points,
                                first: TickEnv, second: TickEnv) returns (s: AccountSession)
    requires messages != [] && quota.totalPoints > 0
    requires first.pick < |messages| && second.pick < |messages|
    requires first.points == Some(quota) && second.points == Some(quota)
    requires SendSucceeded(first.posted)
    ensures |s.calls| == 6
    ensures s.calls[3].SendMessage? && s.calls[3].chatRequest.id == t
    ensures s.calls[5].SendMessage? && s.calls[5].chatRequest.id == t
    ensures s.threadId == (if SendSucceeded(second.posted) then Some(t) else None)
  {
    s := new AccountSession(aiId, messages);
    s.Init(None, Listed(Some([t])), None, first.stamps.uuid, first.stamps.threadCreatedAt);
    s.Tick(first);
    s.Tick(second);
  }

  /**
   * A post that fails for a reason other than the aborted stream drops the thread, and the
   * next tick starts by creating a replacement.
   */
  method FailedSendTriggersRecovery(aiId: JsValue, messages: seq<string>, t: ThreadId,
                                    first: TickEnv, second: TickEnv) returns (s: AccountSession)
    requires messages != [] && first.pick < |messages| && second.pick < |messages|
    requires CanSpend(first.points) && Classify(first.posted) == Failed
    ensures |s.calls| >= 5
    ensures s.calls[3].SendMessage? && s.calls[3].chatRequest.id == t
    ensures s.calls[4] == CreateThread(
      NewThreadRequest(RecoveryMessage, second.stamps.uuid, second.stamps.threadCreatedAt), second.created)
    ensures second.created.None? ==> s.threadId.None? && |s.calls| == 5
  {
    s := new AccountSession(aiId, messages);
    s.Init(None, Listed(Some([t])), None, first.stamps.uuid, first.stamps.threadCreatedAt);
    s.Tick(first);
    assert s.threadId.None?;
    s.Tick(second);
  }
}
