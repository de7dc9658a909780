/**
 * The strict forced-subscription gate (`check_user_subscription_strict`).
 *
 * Admins pass; with no enabled channel everyone passes; otherwise a cached
 * verdict younger than the TTL is reused, and on a miss the membership lookup
 * runs, its verdict (false on any lookup error) being written to the cache
 * under the user's id and nowhere else.  Time is whole seconds.  The admin
 * flag, the channel record and the membership lookup are inputs: the lookup is
 * a function from the chat to ask and the user to the reply it would give.
 */
module Gate {
  import opened Common

  /** Seconds a cached verdict is reused (`SUB_CHECK_TTL_SECONDS`). */
  const SubCheckTtlSeconds: int := 30

  /** The configured channel row, as `get_channel_info()` returns it. */
  datatype Channel = Channel(username: string, channelId: Option<int>, subscriptionEnabled: bool)

  /** What `get_chat_member` is asked about: a numeric chat id or an `@handle`. */
  datatype ChatTarget = ChatById(id: int) | ChatByHandle(handle: string)

  /** The reply of a membership lookup: a member status, or any raised error. */
  datatype MemberLookup = Status(status: string) | LookupError

  /** One `_sub_cache` entry: `{"ok": ..., "ts": ...}`. */
  datatype CacheEntry = CacheEntry(ok: bool, ts: int)

  type SubCache = map<int, CacheEntry>

  /** Verdict, cache afterwards, and the chat asked about if a lookup ran. */
  datatype GateOutcome = GateOutcome(ok: bool, cache: SubCache, queried: Option<ChatTarget>)

  /** The numeric channel id when present and non-zero, otherwise `"@" + username`. */
  function ChatIdentifier(c: Channel): (t: ChatTarget)
    ensures t.ChatById? <==> c.channelId.Some? && c.channelId.value != 0
    ensures t.ChatById? ==> t.id == c.channelId.value
    ensures t.ChatByHandle? ==> |t.handle| == |c.username| + 1 && t.handle[0] == '@' && t.handle[1..] == c.username
  {
    if c.channelId.Some? && c.channelId.value != 0 then ChatById(c.channelId.value)
    else ChatByHandle("@" + c.username)
  }

  predicate IsMemberStatus(status: string)
  {
    status == "member" || status == "administrator" || status == "creator"
  }

  /** Admins, a missing channel and a disabled channel skip the check. */
  predicate Bypass(isAdmin: bool, channel: Option<Channel>)
  {
    isAdmin || channel.None? || !channel.value.subscriptionEnabled
  }

  /** A cached verdict for the user no older than the TTL. */
  predicate FreshEntry(cache: SubCache, userId: int, now: int)
  {
    userId in cache && now - cache[userId].ts <= SubCheckTtlSeconds
  }

  /** One call of the gate, as a function of the cache before it. */
  function GateStep(cache: SubCache, userId: int, now: int, isAdmin: bool, channel: Option<Channel>,
                    getChatMember: (ChatTarget, int) -> MemberLookup): (out: GateOutcome)
    ensures Bypass(isAdmin, channel) ==> out.ok && out.cache == cache && out.queried.None?
    ensures !Bypass(isAdmin, channel) && FreshEntry(cache, userId, now) ==>
              out.ok == cache[userId].ok && out.cache == cache && out.queried.None?
    ensures !Bypass(isAdmin, channel) && !FreshEntry(cache, userId, now) ==>
              && out.queried == Some(ChatIdentifier(channel.value))
              && (out.ok <==> getChatMember(out.queried.value, userId).Status?
                              && IsMemberStatus(getChatMember(out.queried.value, userId).status))
              && out.cache == cache[userId := CacheEntry(out.ok, now)]
    // only the user's own entry may change
    ensures out.cache.Keys <= cache.Keys + {userId}
    ensures forall u :: u in cache && u != userId ==> u in out.cache && out.cache[u] == cache[u]
  {
    if Bypass(isAdmin, channel) then GateOutcome(true, cache, None)
    else if FreshEntry(cache, userId, now) then GateOutcome(cache[userId].ok, cache, None)
    else
      var target := ChatIdentifier(channel.value);
      var ok := match getChatMember(target, userId)
                case Status(status) => IsMemberStatus(status)
                case LookupError => false;
      GateOutcome(ok, cache[userId := CacheEntry(ok, now)], Some(target))
  }

  /** The module-level `_sub_cache` and the gate that reads and writes it. */
  class SubscriptionGate {
    var cache: SubCache

    constructor ()
      ensures cache == map[]
    {
      cache := map[];
    }

    method CheckSubscription(userId: int, now: int, isAdmin: bool, channel: Option<Channel>,
                             getChatMember: (ChatTarget, int) -> MemberLookup)
      returns (ok: bool, queried: Option<ChatTarget>)
      modifies this
      ensures GateOutcome(ok, cache, queried) == GateStep(old(cache), userId, now, isAdmin, channel, getChatMember)
    {
      queried := None;
      if isAdmin {
        return true, queried;
      }
      if channel.None? || !channel.value.subscriptionEnabled {
        return true, queried;
      }
      if userId in cache {
        var cached := cache[userId];
        if now - cached.ts <= SubCheckTtlSeconds {
          return cached.ok, queried;
        }
      }
      var target := ChatIdentifier(channel.value);
      queried := Some(target);
      var reply := getChatMember(target, userId);
      if reply.Status? {
        ok := IsMemberStatus(reply.status);
        cache := cache[userId := CacheEntry(ok, now)];
      } else {
        ok := false;
        cache := cache[userId := CacheEntry(false, now)];
      }
    }
  }

  /**
   * A verdict from a lookup is reused, with no second lookup, by any later
   * call within the TTL, whatever the membership API would now reply.
   */
  lemma CachedVerdictReused(cache: SubCache, userId: int, t1: int, t2: int, isAdmin: bool,
                            channel: Option<Channel>, first: (ChatTarget, int) -> MemberLookup,
                            second: (ChatTarget, int) -> MemberLookup)
    requires GateStep(cache, userId, t1, isAdmin, channel, first).queried.Some?
    requires t2 - t1 <= SubCheckTtlSeconds
    ensures var o1 := GateStep(cache, userId, t1, isAdmin, channel, first);
            GateStep(o1.cache, userId, t2, isAdmin, channel, second) == GateOutcome(o1.ok, o1.cache, None)
  {
  }

  /** Once the TTL has passed, the next call asks the membership API again. */
  lemma ExpiredVerdictRechecked(cache: SubCache, userId: int, t1: int, t2: int, isAdmin: bool,
                                channel: Option<Channel>, first: (ChatTarget, int) -> MemberLookup,
                                second: (ChatTarget, int) -> MemberLookup)
    requires GateStep(cache, userId, t1, isAdmin, channel, first).queried.Some?
    requires t2 - t1 > SubCheckTtlSeconds
    ensures var o1 := GateStep(cache, userId, t1, isAdmin, channel, first);
            GateStep(o1.cache, userId, t2, isAdmin, channel, second).queried.Some?
  {
  }

  /** The verdicts of successive calls for one user at the given times. */
  function GateRun(cache: SubCache, userId: int, times: seq<int>, isAdmin: bool, channel: Option<Channel>,
                   getChatMember: (ChatTarget, int) -> MemberLookup): (r: seq<bool>)
    ensures |r| == |times|
    decreases |times|
  {
    if |times| == 0 then []
    else
      var o := GateStep(cache, userId, times[0], isAdmin, channel, getChatMember);
      [o.ok] + GateRun(o.cache, userId, times[1..], isAdmin, channel, getChatMember)
  }

  predicate NoCachedPass(cache: SubCache, userId: int)
  {
    userId !in cache || !cache[userId].ok
  }

  /**
   * Fail-closed: while every membership lookup errors, a non-admin facing an
   * enabled channel is refused on every call, however the calls are spaced,
   * unless a passing verdict was already cached before the first of them.
   */
  lemma {:induction false} FailClosedRun(cache: SubCache, userId: int, times: seq<int>, channel: Option<Channel>,
                                         getChatMember: (ChatTarget, int) -> MemberLookup)
    requires channel.Some? && channel.value.subscriptionEnabled
    requires forall t :: getChatMember(t, userId).LookupError?
    requires NoCachedPass(cache, userId)
    ensures forall k :: 0 <= k < |times| ==> !GateRun(cache, userId, times, false, channel, getChatMember)[k]
    decreases |times|
  {
    if |times| > 0 {
      var o := GateStep(cache, userId, times[0], false, channel, getChatMember);
      assert !o.ok && NoCachedPass(o.cache, userId);
      FailClosedRun(o.cache, userId, times[1..], channel, getChatMember);
    }
  }
}
