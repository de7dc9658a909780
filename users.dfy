/**
 * The in-memory user store (`user_database`) and the operations on it:
 * the admin's user search (`find_user_by_username_or_id`), lazy creation of
 * a record (`get_user_data`) and the per-user mailbox list
 * (`add_user_email`, `remove_user_email`).
 *
 * The store is a dictionary keyed by `str(user_id)`; here the key is the id
 * itself (`ParseDecimalString` shows the two determine each other) and the
 * dictionary's insertion order, which the search walks, is kept beside it.
 * A record's optional fields are `None` when the key is absent.
 */
module Users {
  import opened Common

  /** One mailbox: the address and the provider's bearer token. */
  datatype Mailbox = Mailbox(address: string, token: string)

  datatype UserRecord = UserRecord(lang: Option<string>, emails: seq<Mailbox>,
                                   firstName: Option<string>, username: Option<string>)

  /** What `get_user_data` stores for a user seen for the first time. */
  const NewUserRecord: UserRecord := UserRecord(None, [], None, None)

  /** The dictionary `find_user_by_username_or_id` returns. */
  datatype FoundUser = FoundUser(telegramId: int, username: Option<string>, firstName: Option<string>)

  predicate IsAt(c: char) { c == '@' }

  /** `str(q).strip().lstrip('@')`: the stripped query without its leading `@` characters. */
  function NormalizeQuery(query: string): (r: string)
    ensures |r| == 0 || r[0] != '@'
    ensures |r| == 0 || !IsSpace(r[|r| - 1])
    ensures exists k :: && 0 <= k <= |Strip(query)| && r == Strip(query)[k..]
                        && forall m :: 0 <= m < k ==> Strip(query)[m] == '@'
  {
    var t := Strip(query);
    t[PrefixLen(t, IsAt)..]
  }

  /** `info.get('username', '')`. */
  function UsernameOrEmpty(rec: UserRecord): string
  {
    match rec.username
    case Some(u) => u
    case None => ""
  }

  /** The loop's test for one entry: the key equals the query, or the username does ignoring case. */
  predicate EntryMatches(id: int, rec: UserRecord, q: string)
  {
    DecimalString(id) == q || Lower(UsernameOrEmpty(rec)) == Lower(q)
  }

  function Found(id: int, rec: UserRecord): FoundUser
  {
    FoundUser(id, rec.username, rec.firstName)
  }

  /** Index of the first entry at or after `from`, in dictionary order, that matches; `|order|` if none. */
  function FirstMatchFrom(order: seq<int>, records: map<int, UserRecord>, q: string, from: nat): (k: nat)
    requires from <= |order|
    requires forall i :: 0 <= i < |order| ==> order[i] in records
    ensures from <= k <= |order|
    ensures forall m :: from <= m < k ==> !EntryMatches(order[m], records[order[m]], q)
    ensures k < |order| ==> EntryMatches(order[k], records[order[k]], q)
    decreases |order| - from
  {
    if from == |order| then from
    else if EntryMatches(order[from], records[order[from]], q) then from
    else FirstMatchFrom(order, records, q, from + 1)
  }

  /** Index of the first entry, in dictionary order, that the loop returns; `|order|` if none. */
  function FirstMatch(order: seq<int>, records: map<int, UserRecord>, q: string): (k: nat)
    requires forall i :: 0 <= i < |order| ==> order[i] in records
    ensures k <= |order|
    ensures forall m :: 0 <= m < k ==> !EntryMatches(order[m], records[order[m]], q)
    ensures k < |order| ==> EntryMatches(order[k], records[order[k]], q)
  {
    FirstMatchFrom(order, records, q, 0)
  }

  /** After the loop: a query `int()` accepts names that id, known or not. */
  function Fallback(q: string, records: map<int, UserRecord>): (r: Option<FoundUser>)
    ensures r.None? <==> ParseInt(q).None?
    ensures r.Some? ==> r.value.telegramId == ParseInt(q).value
    ensures r.Some? && r.value.telegramId in records ==> r.value == Found(r.value.telegramId, records[r.value.telegramId])
    ensures r.Some? && r.value.telegramId !in records ==> r.value.username.None? && r.value.firstName.None?
  {
    match ParseInt(q)
    case None => None
    case Some(n) => if n in records then Some(Found(n, records[n])) else Some(FoundUser(n, None, None))
  }

  /** `find_user_by_username_or_id`. */
  function FindUser(query: string, order: seq<int>, records: map<int, UserRecord>): (r: Option<FoundUser>)
    requires forall i :: 0 <= i < |order| ==> order[i] in records
    ensures r.None? ==> ParseInt(NormalizeQuery(query)).None?
    ensures r.Some? && r.value.telegramId !in records ==> r.value.username.None? && r.value.firstName.None?
    ensures r.Some? && r.value.telegramId in records ==> r.value == Found(r.value.telegramId, records[r.value.telegramId])
  {
    var q := NormalizeQuery(query);
    var k := FirstMatch(order, records, q);
    if k < |order| then Some(Found(order[k], records[order[k]])) else Fallback(q, records)
  }

  /** The first entry whose key or username matches is the one returned. */
  lemma FirstMatchingEntryFound(query: string, order: seq<int>, records: map<int, UserRecord>, k: nat)
    requires forall i :: 0 <= i < |order| ==> order[i] in records
    requires k < |order| && EntryMatches(order[k], records[order[k]], NormalizeQuery(query))
    requires forall m :: 0 <= m < k ==> !EntryMatches(order[m], records[order[m]], NormalizeQuery(query))
    ensures FindUser(query, order, records) == Some(Found(order[k], records[order[k]]))
  {
    var f := FirstMatch(order, records, NormalizeQuery(query));
    assert f == k;
  }

  /** With no entry matching, the result is the numeric fallback. */
  lemma NoEntryMatchesFallback(query: string, order: seq<int>, records: map<int, UserRecord>)
    requires forall i :: 0 <= i < |order| ==> order[i] in records
    requires forall m :: 0 <= m < |order| ==> !EntryMatches(order[m], records[order[m]], NormalizeQuery(query))
    ensures FindUser(query, order, records) == Fallback(NormalizeQuery(query), records)
  {
  }

  /** The dictionary's shape: the order lists each stored id exactly once. */
  predicate StoreValid(order: seq<int>, records: map<int, UserRecord>)
  {
    && (forall i :: 0 <= i < |order| ==> order[i] in records)
    && (forall id :: id in records ==> id in order)
    && (forall i, j :: 0 <= i < j < |order| ==> order[i] != order[j])
  }

  /** No entry before position `p` has a username equal to `q` ignoring case. */
  predicate NoNameBefore(order: seq<int>, records: map<int, UserRecord>, q: string, p: int)
    requires p <= |order|
    requires forall i :: 0 <= i < |order| ==> order[i] in records
  {
    forall m :: 0 <= m < p ==> Lower(UsernameOrEmpty(records[order[m]])) != Lower(q)
  }

  /**
   * Searching for a stored user's id finds that user, unless a user earlier
   * in dictionary order has a username spelling the same text.
   */
  lemma FindByIdFindsUser(query: string, order: seq<int>, records: map<int, UserRecord>, p: int)
    requires StoreValid(order, records)
    requires 0 <= p < |order|
    requires NormalizeQuery(query) == DecimalString(order[p])
    requires NoNameBefore(order, records, NormalizeQuery(query), p)
    ensures FindUser(query, order, records) == Some(Found(order[p], records[order[p]]))
  {
    var q := NormalizeQuery(query);
    var k := FirstMatch(order, records, q);
    assert EntryMatches(order[p], records[order[p]], q);
    assert k <= p;
    if k < p {
      assert Lower(UsernameOrEmpty(records[order[k]])) != Lower(q);
      DecimalStringInjective(order[k], order[p]);
      assert false;
    }
    assert k == p;
  }

  /**
   * Searching for the decimal key of `id`, stored at any position `p` with no
   * earlier username spelling the key, returns `id` with the record `rec`.
   */
  predicate SearchFindsId(order: seq<int>, records: map<int, UserRecord>, id: int, rec: UserRecord)
    requires forall i :: 0 <= i < |order| ==> order[i] in records
  {
    forall p :: 0 <= p < |order| && order[p] == id && NoNameBefore(order, records, DecimalString(id), p) ==>
      FindUser(DecimalString(id), order, records) == Some(Found(id, rec))
  }

  /** In a well-formed store every stored id can be searched for by its key. */
  lemma StoredIdSearchable(order: seq<int>, records: map<int, UserRecord>, id: int)
    requires StoreValid(order, records) && id in records
    ensures SearchFindsId(order, records, id, records[id])
  {
    NormalizeDecimal(id);
    forall p | 0 <= p < |order| && order[p] == id && NoNameBefore(order, records, DecimalString(id), p)
      ensures FindUser(DecimalString(id), order, records) == Some(Found(id, records[id]))
    {
      FindByIdFindsUser(DecimalString(id), order, records, p);
    }
  }

  /** Replacing a stored record keeps the store well-formed. */
  lemma StoreValidUpdate(order: seq<int>, records: map<int, UserRecord>, id: int, rec: UserRecord)
    requires StoreValid(order, records) && id in records
    ensures StoreValid(order, records[id := rec])
  {
  }

  /** The decimal key of an id is a query that normalises to itself. */
  lemma NormalizeDecimal(n: int)
    ensures NormalizeQuery(DecimalString(n)) == DecimalString(n)
  {
    var s := DecimalString(n);
    StripUnpadded(s);
    assert !IsAt(s[0]);
  }

  /** A handle is searched for the same with or without its leading `@`. */
  lemma NormalizeHandle(u: string)
    requires |u| > 0 && u[0] != '@' && !IsSpace(u[0]) && !IsSpace(u[|u| - 1])
    ensures NormalizeQuery(u) == u
    ensures NormalizeQuery("@" + u) == u
  {
    StripUnpadded(u);
    assert PrefixLen(u, IsAt) == 0;
    var h := "@" + u;
    assert h[0] == '@' && h[|h| - 1] == u[|u| - 1];
    StripUnpadded(h);
    assert h[1..] == u;
    assert PrefixLen(h, IsAt) == 1 + PrefixLen(h[1..], IsAt);
  }

  /** The query `"@"` normalises to empty and so finds the first user with no username. */
  lemma BareAtMatchesNamelessUser(order: seq<int>, records: map<int, UserRecord>, k: int)
    requires forall i :: 0 <= i < |order| ==> order[i] in records
    requires 0 <= k < |order| && UsernameOrEmpty(records[order[k]]) == ""
    requires forall m :: 0 <= m < k ==> UsernameOrEmpty(records[order[m]]) != ""
    ensures FindUser("@", order, records) == Some(Found(order[k], records[order[k]]))
  {
    var q := NormalizeQuery("@");
    StripUnpadded("@");
    assert PrefixLen("@", IsAt) == 1;
    assert q == "";
    FirstMatchingEntryFound("@", order, records, k);
  }

  /** `[e for e in emails if e['address'] != address]`. */
  function RemoveAddress(emails: seq<Mailbox>, address: string): (r: seq<Mailbox>)
    ensures forall m :: m in r <==> m in emails && m.address != address
    ensures |r| <= |emails|
  {
    if |emails| == 0 then []
    else if emails[0].address != address then [emails[0]] + RemoveAddress(emails[1..], address)
    else RemoveAddress(emails[1..], address)
  }

  /** Filtering keeps the order of the list: it distributes over concatenation. */
  lemma {:induction false} RemoveAddressAppend(x: seq<Mailbox>, y: seq<Mailbox>, address: string)
    ensures RemoveAddress(x + y, address) == RemoveAddress(x, address) + RemoveAddress(y, address)
  {
    if |x| > 0 {
      assert (x + y)[1..] == x[1..] + y;
      assert RemoveAddress(x + y, address)
          == (if x[0].address != address then [x[0]] else []) + RemoveAddress(x[1..] + y, address);
      RemoveAddressAppend(x[1..], y, address);
    } else {
      assert x + y == y;
    }
  }

  /** A list without the address is left exactly as it was. */
  lemma {:induction false} RemoveAbsentAddress(emails: seq<Mailbox>, address: string)
    requires forall m :: m in emails ==> m.address != address
    ensures RemoveAddress(emails, address) == emails
  {
    if |emails| > 0 {
      assert emails[0] in emails;
      assert forall m :: m in emails[1..] ==> m in emails;
      RemoveAbsentAddress(emails[1..], address);
      assert [emails[0]] + emails[1..] == emails;
    }
  }

  /** Removing twice is removing once. */
  lemma RemoveAddressIdempotent(emails: seq<Mailbox>, address: string)
    ensures RemoveAddress(RemoveAddress(emails, address), address) == RemoveAddress(emails, address)
  {
    RemoveAbsentAddress(RemoveAddress(emails, address), address);
  }

  /** Removing an address just added undoes the append, whatever the token. */
  lemma RemoveUndoesAdd(emails: seq<Mailbox>, address: string, token: string)
    ensures RemoveAddress(emails + [Mailbox(address, token)], address) == RemoveAddress(emails, address)
  {
    RemoveAddressAppend(emails, [Mailbox(address, token)], address);
    assert RemoveAddress([Mailbox(address, token)], address) == [];
  }

  /** Adding a new address and then removing it restores the list. */
  lemma AddThenRemoveRestores(emails: seq<Mailbox>, address: string, token: string)
    requires forall m :: m in emails ==> m.address != address
    ensures RemoveAddress(emails + [Mailbox(address, token)], address) == emails
  {
    RemoveUndoesAdd(emails, address, token);
    RemoveAbsentAddress(emails, address);
  }

  /** The record `get_user_data` returns: the stored one, or a new one. */
  function RecordOf(records: map<int, UserRecord>, userId: int): UserRecord
  {
    if userId in records then records[userId] else NewUserRecord
  }

  /** The dictionary's key order after `get_user_data`: a new key goes last. */
  function OrderWith(order: seq<int>, records: map<int, UserRecord>, userId: int): seq<int>
  {
    if userId in records then order else order + [userId]
  }

  /** `user_database`: records by user id, with the dictionary's insertion order. */
  class UserDatabase {
    var order: seq<int>
    var records: map<int, UserRecord>

    /** The order lists each stored id exactly once. */
    ghost predicate Valid()
      reads this
    {
      StoreValid(order, records)
    }

    constructor ()
      ensures Valid() && order == [] && records == map[]
    {
      order := [];
      records := map[];
    }

    /**
     * The store `find_user_by_username_or_id` searches: every stored user is
     * found by its key unless an earlier username spells that key.
     */
    lemma StoredUserSearchable(userId: int)
      requires Valid() && userId in records
      ensures SearchFindsId(order, records, userId, records[userId])
    {
      StoredIdSearchable(order, records, userId);
    }

    /** `get_user_data`: create the record on first use; afterwards change nothing. */
    method GetUserData(userId: int) returns (rec: UserRecord)
      requires Valid()
      modifies this
      ensures Valid()
      ensures order == OrderWith(old(order), old(records), userId)
      ensures records == old(records)[userId := RecordOf(old(records), userId)]
      ensures rec == RecordOf(old(records), userId) == records[userId]
      ensures userId in old(records) ==> order == old(order) && records == old(records)
    {
      if userId !in records {
        records := records[userId := NewUserRecord];
        order := order + [userId];
      }
      rec := records[userId];
    }

    /** `add_user_email`: append one mailbox at the end of the user's list. */
    method AddUserEmail(userId: int, address: string, token: string)
      requires Valid()
      modifies this
      ensures Valid()
      ensures order == OrderWith(old(order), old(records), userId)
      ensures var before := RecordOf(old(records), userId);
              records == old(records)[userId := before.(emails := before.emails + [Mailbox(address, token)])]
    {
      var rec := GetUserData(userId);
      rec := rec.(emails := rec.emails + [Mailbox(address, token)]);
      StoreValidUpdate(order, records, userId, rec);
      records := records[userId := rec];
    }

    /** `remove_user_email`: drop every mailbox with the address, keep the rest in order. */
    method RemoveUserEmail(userId: int, address: string)
      requires Valid()
      modifies this
      ensures Valid()
      ensures order == OrderWith(old(order), old(records), userId)
      ensures var before := RecordOf(old(records), userId);
              records == old(records)[userId := before.(emails := RemoveAddress(before.emails, address))]
    {
      var rec := GetUserData(userId);
      rec := rec.(emails := RemoveAddress(rec.emails, address));
      StoreValidUpdate(order, records, userId, rec);
      records := records[userId := rec];
    }
  }
}
