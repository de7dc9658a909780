/**
 * The unified access check run before every command, button press and
 * message (`enforce_access_or_reply`): a ban check, then the global offline
 * switch, then the strict subscription gate; the first failing check decides.
 *
 * The ban list and the admin list are database reads; when the database
 * cannot be reached `is_banned` and `is_admin` both answer false, which opens
 * the ban check and closes the admin exemption.  The configured owner id
 * (`ADMIN_ID`) is always an admin and never banned.
 */
module Access {
  import opened Common
  import opened Gate

  /** A database read: the rows it returned, or no connection / a failed query. */
  datatype DbRead<T> = Rows(value: T) | DbUnavailable

  datatype Denial = Banned | Offline | NotSubscribed

  datatype AccessResult = Allowed | Denied(reason: Denial)

  /** `is_admin`: the owner id, or an id listed in the admins table. */
  function IsAdmin(ownerId: int, userId: int, admins: DbRead<set<int>>): (r: bool)
    ensures userId == ownerId ==> r
    ensures admins.DbUnavailable? ==> (r <==> userId == ownerId)
    ensures r && userId != ownerId ==> userId in admins.value
    ensures admins.Rows? && userId in admins.value ==> r
  {
    userId == ownerId || (admins.Rows? && userId in admins.value)
  }

  /** `is_banned`: never the owner; otherwise listed in the ban table, failing open. */
  function IsBanned(ownerId: int, userId: int, bans: DbRead<set<int>>): (r: bool)
    ensures userId == ownerId ==> !r
    ensures bans.DbUnavailable? ==> !r
    ensures r ==> userId in bans.value
    ensures bans.Rows? && userId in bans.value && userId != ownerId ==> r
  {
    userId != ownerId && bans.Rows? && userId in bans.value
  }

  /**
   * The order of the three checks over their outcomes.  `subscribed` is the
   * gate's verdict; it is only consulted once the first two checks pass.
   */
  function AccessDecision(banned: bool, admin: bool, botActive: bool, subscribed: bool): (r: AccessResult)
    ensures r == Allowed <==> (admin || !banned) && (admin || botActive) && subscribed
    ensures r == Denied(Banned) <==> banned && !admin
    ensures r == Denied(Offline) <==> !banned && !botActive && !admin
    ensures r == Denied(NotSubscribed) <==> (admin || !banned) && (admin || botActive) && !subscribed
  {
    if banned && !admin then Denied(Banned)
    else if !botActive && !admin then Denied(Offline)
    else if !subscribed then Denied(NotSubscribed)
    else Allowed
  }

  /**
   * `enforce_access_or_reply` without its replies: the gate runs (and may
   * touch its cache) only when the ban and offline checks have passed.
   */
  method EnforceAccess(gate: SubscriptionGate, ownerId: int, userId: int, admins: DbRead<set<int>>,
                       bans: DbRead<set<int>>, botActive: bool, now: int, channel: Option<Channel>,
                       getChatMember: (ChatTarget, int) -> MemberLookup)
    returns (r: AccessResult)
    modifies gate
    ensures var admin := IsAdmin(ownerId, userId, admins);
            var banned := IsBanned(ownerId, userId, bans);
            var step := GateStep(old(gate.cache), userId, now, admin, channel, getChatMember);
            && r == AccessDecision(banned, admin, botActive, step.ok)
            && gate.cache == (if (banned || !botActive) && !admin then old(gate.cache) else step.cache)
    ensures IsAdmin(ownerId, userId, admins) ==> r == Allowed && gate.cache == old(gate.cache)
    ensures IsBanned(ownerId, userId, bans) && !IsAdmin(ownerId, userId, admins) ==>
              r == Denied(Banned) && gate.cache == old(gate.cache)
  {
    if IsBanned(ownerId, userId, bans) && !IsAdmin(ownerId, userId, admins) {
      return Denied(Banned);
    }
    if !botActive && !IsAdmin(ownerId, userId, admins) {
      return Denied(Offline);
    }
    var ok, _ := gate.CheckSubscription(userId, now, IsAdmin(ownerId, userId, admins), channel, getChatMember);
    if !ok {
      return Denied(NotSubscribed);
    }
    return Allowed;
  }

  /**
   * With an enabled channel, a non-admin is let through only on a fresh
   * cached pass or a lookup reply with a member status: a lookup error can
   * never open the gate.
   */
  lemma AllowedNeedsMembership(cache: SubCache, ownerId: int, userId: int, admins: DbRead<set<int>>,
                               bans: DbRead<set<int>>, botActive: bool, now: int, channel: Channel,
                               getChatMember: (ChatTarget, int) -> MemberLookup)
    requires channel.subscriptionEnabled && !IsAdmin(ownerId, userId, admins)
    requires AccessDecision(IsBanned(ownerId, userId, bans), false, botActive,
                            GateStep(cache, userId, now, false, Some(channel), getChatMember).ok) == Allowed
    ensures !IsBanned(ownerId, userId, bans) && botActive
    ensures || (FreshEntry(cache, userId, now) && cache[userId].ok)
            || (var reply := getChatMember(ChatIdentifier(channel), userId);
                reply.Status? && IsMemberStatus(reply.status))
  {
    if !FreshEntry(cache, userId, now) {
      var o := GateStep(cache, userId, now, false, Some(channel), getChatMember);
      assert o.queried == Some(ChatIdentifier(channel));
    }
  }
}
