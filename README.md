# Temp-mail Telegram bot: access gate, passcode extraction and user store

This project models the decision logic of a Telegram bot that hands out
disposable mail.tm addresses. Everything else in the bot is database, HTTP or
Telegram plumbing. The model covers these parts:

- **Strict subscription gate** (`check_user_subscription_strict`). Admins pass.
  With no enabled channel, everyone passes. Otherwise the gate reuses a cached
  verdict that is at most 30 seconds old. Failing that, it asks Telegram whether
  the user is a member of the channel. The numeric channel id is used when it is
  set and non-zero, otherwise `@username`. The verdict is true only for the
  statuses `member`, `administrator` and `creator`. Any lookup error counts as a
  refusal. The verdict is written to the in-process cache under that user's id
  and nowhere else. The cache is a class (`Gate.SubscriptionGate`) whose method
  is proved against the function `Gate.GateStep`. The gate reads the channel
  row with `only_enabled=True` (telegram_bot.py:501), so a disabled channel
  reaches it as no channel at all.
- **Access ordering** (`enforce_access_or_reply`). The checks run in this order:
  ban, global offline switch, subscription gate. The first failure decides.
  The gate, and so its cache, is reached only when the first two checks pass.
  The ban and admin lists are database reads. If the database is unreachable,
  the ban check fails open and the admin exemption fails closed.
- **Passcode extraction** (`extract_otp`). It returns the first match of
  `\b(\d{4,8})\b`. The regular expression's meaning is stated as a predicate
  (`Otp.MatchesAt`). The scanner is proved to return exactly the leftmost match.
- **Display limits.** A message body is cut at 3500 characters and a "too long"
  marker is added. A button label longer than 30 characters becomes its first 27
  characters plus `...`. At most 10 message buttons are built.
- **User search** (`find_user_by_username_or_id`). The query is stripped and its
  leading `@` characters are removed. The search walks the dictionary in
  insertion order and stops at the first key equal to the query, or the first
  username equal to it ignoring case. If nothing matches, a numeric query yields
  that id.
- **User records and mailbox lists** (`get_user_data`, `add_user_email`,
  `remove_user_email`). These are modelled as a class over the user dictionary
  and its insertion order.

Time is a whole number of seconds. The admin flag, the ban and admin tables, the
channel row and the Telegram membership lookup are inputs. The lookup is a
function from the chat asked and the user to the reply.

## Model

| member | source | states |
|---|---|---|
| `Gate.ChatIdentifier` | telegram_bot.py:514-516 | The membership lookup targets the numeric channel id exactly when it is present and non-zero; otherwise it targets `@` followed by the channel username |
| `Gate.GateStep` | telegram_bot.py:493-527 | Admins, a missing channel and a disabled channel pass with the cache untouched and no lookup. A cached verdict with `now - ts <= 30` is returned with no lookup. Otherwise the lookup runs against `ChatIdentifier`: the verdict is true iff the reply is a member status, and an error gives false. The verdict is stored as `(verdict, now)` under the user. No other key is added or changed |
| `Gate.SubscriptionGate.CheckSubscription` | telegram_bot.py:493-527 | The cache-holding gate returns the verdict and the chat it queried, and leaves its cache exactly as `GateStep` describes |
| `Gate.SubscriptionGate.constructor` | telegram_bot.py:42 | The cache starts empty |
| `Gate.CachedVerdictReused` | telegram_bot.py:508-512 | After a lookup, any later call within 30 seconds returns the same verdict with no new lookup and no cache change, whatever the API would now reply |
| `Gate.ExpiredVerdictRechecked` | telegram_bot.py:508-518 | After a lookup, a call more than 30 seconds later performs a fresh lookup |
| `Gate.FailClosedRun` | telegram_bot.py:518-527 | While every lookup errors, a non-admin facing an enabled channel is refused on every call of any sequence, provided no passing verdict was cached before the sequence |
| `Access.IsAdmin` | telegram_bot.py:289-303 | The owner id is always an admin. If the admins table cannot be read, only the owner is an admin. Otherwise a user other than the owner is an admin iff listed in the table |
| `Access.IsBanned` | telegram_bot.py:230-244 | The owner id is never banned. If the ban table cannot be read, nobody is banned (fail open). Otherwise a user other than the owner is banned iff listed in the table |
| `Access.AccessDecision` | telegram_bot.py:836-876 | Allowed iff every check passes: not banned or admin, bot active or admin, and subscribed. Denied for the ban iff banned and not admin. Denied for offline iff not banned, the bot is inactive and the user is not admin. Denied for subscription iff the first two checks pass and the gate refuses |
| `Access.EnforceAccess` | telegram_bot.py:836-876 | The result is `AccessDecision` applied to the admin flag, the ban flag, the offline switch and the gate's verdict. The gate's cache changes only when the ban and offline checks have passed. An admin is always allowed. A banned non-admin is denied for the ban and leaves the cache untouched |
| `Access.AllowedNeedsMembership` | telegram_bot.py:864-876 | With an enabled channel, an allowed non-admin is neither banned nor facing an offline bot. In addition, either a fresh cached verdict was true or the lookup replied with a member status |
| `Otp.FindFrom` | telegram_bot.py:705 | Returns the leftmost position at or after `i` where `\b\d{4,8}\b` matches, with no match before it; returns none only if nothing matches from `i` on |
| `Otp.ExtractOtp` | telegram_bot.py:702-706 | Empty text gives no code. Any code returned is 4 to 8 ASCII digits |
| `Otp.MatchEndsAtRunEnd` | telegram_bot.py:705 | A match starting at a position ends exactly where that position's digit run ends, so the greedy match is unique |
| `Otp.LeftmostMatchExtracted` | telegram_bot.py:702-706 | When `s[i..j]` is a match and no match starts before `i`, the result is exactly `s[i..j]` |
| `Otp.NoMatchIffNone` | telegram_bot.py:702-706 | No code is returned iff the pattern matches nowhere in the text |
| `Otp.ExtractedIsLeftmostMatch` | telegram_bot.py:705-706 | A returned code is the text of a match, and no match starts further left |
| `Otp.LongRunNeverMatches` | telegram_bot.py:705 | No match starts inside a run of nine or more digits |
| `Otp.ExampleCodeFirst` | telegram_bot.py:702-706 | The text `4821 is your code` yields `4821` |
| `Otp.ExampleNineDigits` | telegram_bot.py:702-706 | The text `123456789` yields no code |
| `Display.TruncateBody` | telegram_bot.py:1185-1186 | A body of at most 3500 characters is shown unchanged. A longer one becomes its first 3500 characters followed by the Arabic or English marker |
| `Display.ShortLabel` | telegram_bot.py:790 | A label never exceeds 30 characters. One of at most 30 is unchanged. A longer one is exactly its first 27 characters plus `...` |
| `Display.ShortLabelIdempotent` | telegram_bot.py:799 | Shortening an already shortened label changes nothing |
| `Display.MessageButtons` | telegram_bot.py:795-800 | Builds `min(10, n)` buttons. Button `i` shows `✉️ ` and the shortened subject, with `No Subject` when the subject is absent, and carries `msg_<mailbox>_<i>`. Every label fits in the icon plus 30 characters |
| `Display.MailboxButtons` | telegram_bot.py:786-791 | Builds one button per mailbox in list order. Button `i` shows `📧 ` and the shortened address, and carries `<prefix>_<i>` |
| `Display.SubjectOrDefault` | telegram_bot.py:798 | The subject when the message has one, otherwise `No Subject` |
| `Display.MessageContent` | telegram_bot.py:1182 | The message's `text` when present, otherwise its `intro` when present, otherwise `No content` |
| `Display.ViewMessage` | telegram_bot.py:1182-1186 | The passcode is `ExtractOtp` of the whole content, so the leftmost match of the pattern in it. The body is the content itself when it has at most 3500 characters, and otherwise exactly its first 3500 characters followed by the marker in the user's language |
| `Display.OtpBeyondCutStillFound` | telegram_bot.py:1184-1186 | The passcode comes from the whole body, so a code past character 3500 is still reported |
| `Common.Strip` | telegram_bot.py:356 | The stripped query is a slice of the input with only whitespace cut off before and after it, and it has no whitespace at either end |
| `Common.LowerChars` | telegram_bot.py:361 | `.lower()` turns each ASCII capital into its small letter, leaves every other character alone and keeps the length |
| `Common.LowerIdempotent` | telegram_bot.py:361 | Lowering a lowered string changes nothing |
| `Common.DecimalString` | telegram_bot.py:359 | `str(n)` is non-empty and free of whitespace: digits for `n >= 0`, and `-` followed by digits for a negative `n` |
| `Common.ParseInt` | telegram_bot.py:365 | `int()` succeeds exactly when the stripped text is an optional `+` or `-` followed by one or more ASCII digits; only a leading `-` gives a negative value; plain digits give their decimal value, and a sign followed by digits gives their signed value (`+42` is 42, `-042` is -42) |
| `Common.ParseDecimalString` | telegram_bot.py:364-368 | `int(str(n)) == n`, so a dictionary key and the user id it comes from determine each other |
| `Common.DecimalStringInjective` | telegram_bot.py:358-359 | Distinct ids have distinct keys, so comparing a query with a key compares it with one id |
| `Users.NormalizeQuery` | telegram_bot.py:356 | The normalised query is the stripped query with a run of leading `@` characters removed; it does not start with `@` and does not end in whitespace |
| `Users.NormalizeDecimal` | telegram_bot.py:356-359 | A user's key, used as the query, normalises to itself |
| `Users.NormalizeHandle` | telegram_bot.py:356 | A handle without surrounding whitespace normalises to itself, with or without a leading `@` |
| `Users.FirstMatch` | telegram_bot.py:358-362 | The index returned is the first entry, in dictionary order, whose key equals the query or whose username equals it ignoring case; it is the length of the order when no entry matches |
| `Users.FindUser` | telegram_bot.py:355-373 | No result is returned only for a query that is not an integer. A result for a stored id carries that record's username and first name. A result for an unknown id has neither |
| `Users.FirstMatchingEntryFound` | telegram_bot.py:358-362 | The first matching entry in dictionary order is the one returned |
| `Users.Fallback` | telegram_bot.py:364-373 | No result exactly when `int()` rejects the query. Otherwise the result carries the parsed id, with the stored record's username and first name when the id is stored and neither when it is not |
| `Users.NoEntryMatchesFallback` | telegram_bot.py:364-373 | With no entry matching, a numeric query returns the stored record for that id, or the bare id, and anything else returns nothing |
| `Users.FindByIdFindsUser` | telegram_bot.py:355-362 | In a store whose order lists each stored id once, a query that normalises to the key of the user at position `p` finds that user, provided no user before `p` has a username spelling the key ignoring case |
| `Users.StoredIdSearchable` | telegram_bot.py:355-362 | In such a store, searching for any stored user's own key finds that user with its record, unless an earlier username spells the key |
| `Users.UserDatabase.StoredUserSearchable` | telegram_bot.py:355-362 | The store kept by `get_user_data`, `add_user_email` and `remove_user_email` is one where every stored user is found by its key, unless an earlier username spells the key |
| `Users.BareAtMatchesNamelessUser` | telegram_bot.py:356-362 | The query `@` normalises to the empty string, so it finds the first user in dictionary order whose username is absent or empty |
| `Users.RemoveAddress` | telegram_bot.py:753 | The filtered list holds exactly the mailboxes of the original whose address differs |
| `Users.RemoveAddressAppend` | telegram_bot.py:753 | Filtering distributes over concatenation, so the kept mailboxes stay in their original order |
| `Users.RemoveAbsentAddress` | telegram_bot.py:753 | A list with no mailbox at the address is left unchanged |
| `Users.RemoveAddressIdempotent` | telegram_bot.py:750-755 | Removing an address twice is the same as removing it once |
| `Users.RemoveUndoesAdd` | telegram_bot.py:743-755 | Removing an address just appended gives the same list as removing it from the list before the append |
| `Users.AddThenRemoveRestores` | telegram_bot.py:743-755 | Appending a mailbox with a new address and then removing that address restores the list |
| `Users.UserDatabase.GetUserData` | telegram_bot.py:713-718 | A new id gets the record `{lang: None, emails: []}`, and its key is added last in order. An existing id changes nothing, so later calls change nothing. The stored record is returned |
| `Users.UserDatabase.AddUserEmail` | telegram_bot.py:743-748 | The user's record is created if missing. Exactly one mailbox is appended at the end of its list. Every other user and every other field stay as they were |
| `Users.UserDatabase.RemoveUserEmail` | telegram_bot.py:750-755 | The user's record is created if missing, and its list becomes `RemoveAddress` of the old list. Every other user stays as it was |

## Left out

- Database access (`init_database`, `load_user_data`, `save_single_user`,
  settings, and ban, admin and channel changes) is I/O. The model takes the ban
  table, the admin table and the channel row as inputs, and each read can fail.
  Saving a user record after a change is not modelled.
- The mail.tm HTTP calls (`get_available_domains`, `create_email`, `check_inbox`,
  `get_message_content`) are network I/O, and address generation is random.
  Messages appear only as the `subject`, `text` and `intro` members the views
  read.
- Telegram replies and edits, the subscription prompt text, the `get_text`
  string tables, the navigation rows of the keyboards, the async handlers,
  `error_handler` and `main` are framework glue.
- `datetime.utcnow()` and `total_seconds()` are replaced by whole seconds with
  the same inclusive `<= 30` test. Fractions of a second are not modelled.
- The same inclusive test means a clock that runs backwards keeps reusing a
  cached verdict, as in the source.
- Python's Unicode classes for `\d`, `\w`, `strip()`, `lower()` and `int()` are
  restricted to ASCII in this model. Non-ASCII letters count as non-word
  characters here, unlike in Python.
- `int()` accepts underscores between digits (`1_000`); the model does not.
- `Otp.ExtractOtp` takes a string. The `None` text that `extract_otp` also
  turns into no code is not modelled.
- A username or subject stored with the value `None` would make the source raise
  when it calls `.lower()` or `len()`. The model treats an absent value as the
  source's default (`''` or `No Subject`) and does not model this crash.
- `enforce_access_or_reply` calls `is_admin` up to three times, each a separate
  database read. `Access.EnforceAccess` uses one reading of the admin table per
  call.
- `set_user_language`, `update_user_info` and `get_user_emails` lie outside the
  modelled core.
