/** The interacted-users store of GramAddict/core/storage.py: a map from username to an
    interaction record, with the update `add_interacted_user` and its queries.

    File loading and writing are left out; "now" is an explicit integer number of
    microseconds instead of `datetime.now()`. */
module Storage {
  import opened Wrappers

  type Username = string

  /** The exceptions the store's queries can raise. */
  datatype PyError =
    | KeyError(key: string)   // a record lacks a field that is read with `user[key]`
    | ValueError              // `strptime` cannot match its format

  // Field names of an interaction record.
  const UserLastInteraction := "last_interaction"
  const UserFollowingStatus := "following_status"

  /* ---------------- The FollowingStatus enum ---------------- */

  /** The enum `FollowingStatus`; its members are declared with distinct values (`@unique`). */
  datatype FollowingStatus = NONE | FOLLOWED | UNFOLLOWED | NOT_IN_LIST | SCRAPED
  {
    function Value(): nat {
      match this
      case NONE => 0
      case FOLLOWED => 1
      case UNFOLLOWED => 2
      case NOT_IN_LIST => 3
      case SCRAPED => 4
    }

    /** The member's `.name`. */
    function Name(): string {
      match this
      case NONE => "NONE"
      case FOLLOWED => "FOLLOWED"
      case UNFOLLOWED => "UNFOLLOWED"
      case NOT_IN_LIST => "NOT_IN_LIST"
      case SCRAPED => "SCRAPED"
    }
  }

  /** Lookup by name, `FollowingStatus[name]`: the member with exactly that name, if any. */
  function StatusByName(name: string): (r: Option<FollowingStatus>)
    ensures r.Some? ==> r.value.Name() == name
    ensures r.None? ==> forall s: FollowingStatus :: s.Name() != name
  {
    if name == "NONE" then Some(NONE)
    else if name == "FOLLOWED" then Some(FOLLOWED)
    else if name == "UNFOLLOWED" then Some(UNFOLLOWED)
    else if name == "NOT_IN_LIST" then Some(NOT_IN_LIST)
    else if name == "SCRAPED" then Some(SCRAPED)
    else None
  }

  /** `@unique`: no two members share a value, so the value identifies the member. */
  lemma StatusValuesUnique(s: FollowingStatus, t: FollowingStatus)
    ensures s.Value() == t.Value() <==> s == t
  {
  }

  /* ---------------- ASCII case mapping (`str.lower`, `str.upper`) ---------------- */

  function LowerChar(c: char): char {
    if 'A' <= c <= 'Z' then (c as int + 32) as char else c
  }

  function UpperChar(c: char): char {
    if 'a' <= c <= 'z' then (c as int - 32) as char else c
  }

  function Lower(s: string): (r: string)
    ensures |r| == |s|
    ensures forall i :: 0 <= i < |s| ==> r[i] == LowerChar(s[i])
  {
    seq(|s|, i requires 0 <= i < |s| => LowerChar(s[i]))
  }

  function Upper(s: string): (r: string)
    ensures |r| == |s|
    ensures forall i :: 0 <= i < |s| ==> r[i] == UpperChar(s[i])
  {
    seq(|s|, i requires 0 <= i < |s| => UpperChar(s[i]))
  }

  /** The name written by `add_interacted_user` (`.name.lower()`) is read back by
      `get_following_status` (`FollowingStatus[... .upper()]`) as the same member. */
  lemma StatusNameRoundTrip(s: FollowingStatus)
    ensures StatusByName(Upper(Lower(s.Name()))) == Some(s)
  {
  }

  /* ---------------- Timestamps ---------------- */

  const MicrosPerSecond: int := 1_000_000
  const MicrosPerDay: int := 86_400 * MicrosPerSecond

  type Fraction = x: int | 0 <= x < MicrosPerSecond

  /** The text of a datetime, `"%Y-%m-%d %H:%M:%S"` optionally followed by `".%f"`,
      abstracted to the whole seconds it names and its fractional part, if written. */
  datatype TimeText = TimeText(wholeSeconds: int, fraction: Option<Fraction>)

  /** `str(datetime)`: the fractional part is written only when the microsecond is not 0. */
  function TimeToText(t: int): (tt: TimeText)
    ensures tt.fraction.None? <==> t % MicrosPerSecond == 0
  {
    TimeText(t / MicrosPerSecond, if t % MicrosPerSecond == 0 then None else Some(t % MicrosPerSecond))
  }

  /** `datetime.strptime(text, "%Y-%m-%d %H:%M:%S.%f")` as written: the fraction is mandatory. */
  function ParseTimeAsWritten(tt: TimeText): (r: Result<int, PyError>)
    ensures r.Failure? <==> tt.fraction.None?
    ensures r.Success? ==> r.value / MicrosPerSecond == tt.wholeSeconds
    ensures r.Success? ==> r.value % MicrosPerSecond == tt.fraction.value
  {
    match tt.fraction
    case None => Failure(ValueError)
    case Some(f) => Success(tt.wholeSeconds * MicrosPerSecond + f)
  }

  /** Reading a timestamp so that every text `str(datetime)` writes is accepted:
      a missing fraction means 0 microseconds. */
  function ParseTime(tt: TimeText): (t: int)
    ensures t / MicrosPerSecond == tt.wholeSeconds
    ensures t % MicrosPerSecond == tt.fraction.GetOr(0)
  {
    tt.wholeSeconds * MicrosPerSecond + tt.fraction.GetOr(0)
  }

  /** The corrected reader inverts the writer on every instant. */
  lemma ParseTimeRoundTrip(t: int)
    ensures ParseTime(TimeToText(t)) == t
  {
  }

  /** The reader as written inverts the writer exactly on instants that are not whole seconds. */
  lemma ParseTimeAsWrittenRoundTrip(t: int)
    ensures ParseTimeAsWritten(TimeToText(t)) == (if t % MicrosPerSecond == 0 then Failure(ValueError) else Success(t))
  {
  }

  /** A concrete instant the as-written reader rejects: one second after the epoch. */
  lemma WholeSecondStampRejected()
    ensures ParseTimeAsWritten(TimeToText(MicrosPerSecond)) == Failure(ValueError)
    ensures ParseTime(TimeToText(MicrosPerSecond)) == MicrosPerSecond
  {
  }

  /** `now - last <= timedelta(...)`; a timestamp in the future counts as within the window. */
  predicate WithinWindow(last: int, now: int, window: int) {
    now - last <= window
  }

  /* ---------------- The store ---------------- */

  /** One value of `interacted_users`. Every key is optional because records read from a file
      need not carry every key; `None` stands for a missing key. */
  datatype UserRecord = UserRecord(
    lastInteraction: Option<TimeText>,
    followingStatus: Option<string>,
    sessionId: Option<string>,
    jobName: Option<string>,
    target: Option<string>,
    liked: Option<int>,
    watched: Option<int>,
    commented: Option<int>,
    followed: Option<bool>,
    unfollowed: Option<bool>,
    scraped: Option<bool>)

  /** The `{}` that `interacted_users.get(username, {})` starts from for a new user. */
  const EmptyRecord := UserRecord(None, None, None, None, None, None, None, None, None, None, None)

  /** The per-instance state of `Storage` that the core reads and writes. */
  datatype StorageState = StorageState(
    interactedUsers: map<Username, UserRecord>,
    whitelist: seq<Username>,
    blacklist: seq<Username>)

  /** The keyword arguments of `add_interacted_user` after `username`. */
  datatype Interaction = Interaction(
    sessionId: string,
    followed: bool,
    unfollowed: bool,
    scraped: bool,
    liked: int,
    watched: int,
    commented: int,
    jobName: Option<string>,
    target: Option<string>)

  /** The call `add_interacted_user(username, session_id)` with every keyword left at its default. */
  function DefaultInteraction(sessionId: string): (a: Interaction)
    ensures a.sessionId == sessionId
    ensures !a.followed && !a.unfollowed && !a.scraped
    ensures a.liked == 0 && a.watched == 0 && a.commented == 0
    ensures a.jobName.None? && a.target.None?
  {
    Interaction(sessionId, false, false, false, 0, 0, 0, None, None)
  }

  /** The record `add_interacted_user` starts from: the stored one, or `{}`. */
  function RecordOrEmpty(st: StorageState, username: Username): UserRecord {
    if username in st.interactedUsers then st.interactedUsers[username] else EmptyRecord
  }

  /** The following status chosen from the three flags: the first true flag wins. */
  function DeriveStatus(followed: bool, unfollowed: bool, scraped: bool): (s: FollowingStatus)
    ensures s == FOLLOWED <==> followed
    ensures s == UNFOLLOWED <==> !followed && unfollowed
    ensures s == SCRAPED <==> !followed && !unfollowed && scraped
    ensures s == NONE <==> !followed && !unfollowed && !scraped
    ensures s != NOT_IN_LIST
  {
    if followed then FOLLOWED
    else if unfollowed then UNFOLLOWED
    else if scraped then SCRAPED
    else NONE
  }

  /** A counter increased by `delta`, or set to `delta` when the key is missing. */
  function Accumulate(prior: Option<int>, delta: int): (r: int)
    ensures prior.None? ==> r == delta
    ensures prior.Some? ==> r - prior.value == delta
  {
    if prior.None? then delta else prior.value + delta
  }

  /** The flag update "only if we have a real update": write the argument when the key is
      missing or differs, otherwise keep the stored value. It always equals the argument. */
  function KeepUnlessChanged(prior: Option<bool>, arg: bool): (r: bool)
    ensures r == arg
  {
    if prior.None? || prior.value != arg then arg else prior.value
  }

  /** The record that `add_interacted_user` stores for a user whose previous record is `prior`. */
  function UpdatedRecord(prior: UserRecord, a: Interaction, now: int): UserRecord {
    UserRecord(
      lastInteraction := Some(TimeToText(now)),
      followingStatus := Some(Lower(DeriveStatus(a.followed, a.unfollowed, a.scraped).Name())),
      sessionId := Some(a.sessionId),
      jobName := a.jobName,
      target := a.target,
      liked := Some(Accumulate(prior.liked, a.liked)),
      watched := Some(Accumulate(prior.watched, a.watched)),
      commented := Some(Accumulate(prior.commented, a.commented)),
      followed := Some(KeepUnlessChanged(prior.followed, a.followed)),
      unfollowed := Some(KeepUnlessChanged(prior.unfollowed, a.unfollowed)),
      scraped := Some(KeepUnlessChanged(prior.scraped, a.scraped)))
  }

  /** `add_interacted_user(username, ...)` at instant `now`. */
  function AddInteractedUser(st: StorageState, username: Username, a: Interaction, now: int): (st': StorageState)
    // only the entry for `username` changes
    ensures st'.whitelist == st.whitelist && st'.blacklist == st.blacklist
    ensures st'.interactedUsers.Keys == st.interactedUsers.Keys + {username}
    ensures forall u :: u in st.interactedUsers && u != username ==> st'.interactedUsers[u] == st.interactedUsers[u]
    // the counters accumulate
    ensures var prior := RecordOrEmpty(st, username); var r := st'.interactedUsers[username];
      && r.liked == Some(if prior.liked.Some? then prior.liked.value + a.liked else a.liked)
      && r.watched == Some(if prior.watched.Some? then prior.watched.value + a.watched else a.watched)
      && r.commented == Some(if prior.commented.Some? then prior.commented.value + a.commented else a.commented)
    // the latest session, job, target, flags and interaction time overwrite the old ones
    ensures var r := st'.interactedUsers[username];
      && r.sessionId == Some(a.sessionId) && r.jobName == a.jobName && r.target == a.target
      && r.followed == Some(a.followed) && r.unfollowed == Some(a.unfollowed) && r.scraped == Some(a.scraped)
      && r.lastInteraction.Some? && ParseTime(r.lastInteraction.value) == now
  {
    var user := UpdatedRecord(RecordOrEmpty(st, username), a, now);
    st.(interactedUsers := st.interactedUsers[username := user])
  }

  /* ---------------- Queries ---------------- */

  /** `check_user_was_interacted`: `interacted_users.get(username)` finds a record. */
  function WasInteracted(st: StorageState, username: Username): (r: bool)
    ensures r <==> username in st.interactedUsers
    ensures !r ==> GetFollowingStatus(st, username) == Success(NOT_IN_LIST)
  {
    username in st.interactedUsers
  }

  /** `get_following_status`: NOT_IN_LIST for an unknown user, otherwise the member named by the
      upper-cased stored status; a missing key or an unknown name raises. */
  function GetFollowingStatus(st: StorageState, username: Username): (r: Result<FollowingStatus, PyError>)
    ensures username !in st.interactedUsers ==> r == Success(NOT_IN_LIST)
    ensures r.Failure? ==> username in st.interactedUsers
    ensures username in st.interactedUsers ==>
      (r.Success? <==> st.interactedUsers[username].followingStatus.Some?
                       && StatusByName(Upper(st.interactedUsers[username].followingStatus.value)).Some?)
    ensures r.Success? && username in st.interactedUsers ==>
      && st.interactedUsers[username].followingStatus.Some?
      && r.value.Name() == Upper(st.interactedUsers[username].followingStatus.value)
  {
    if username !in st.interactedUsers then Success(NOT_IN_LIST)
    else
      match st.interactedUsers[username].followingStatus
      case None => Failure(KeyError(UserFollowingStatus))
      case Some(name) =>
        match StatusByName(Upper(name))
        case None => Failure(KeyError(Upper(name)))
        case Some(s) => Success(s)
  }

  /** The time of a record's last interaction, read with the corrected reader `ParseTime`, or the
      KeyError that a missing key raises. */
  function LastInteraction(user: UserRecord): (r: Result<int, PyError>)
    ensures r.Failure? <==> user.lastInteraction.None?
    ensures r.Failure? ==> r.error == KeyError(UserLastInteraction)
    ensures r.Success? ==>
      && r.value / MicrosPerSecond == user.lastInteraction.value.wholeSeconds
      && r.value % MicrosPerSecond == user.lastInteraction.value.fraction.GetOr(0)
  {
    match user.lastInteraction
    case None => Failure(KeyError(UserLastInteraction))
    case Some(tt) => Success(ParseTime(tt))
  }

  /** The same read as the source writes it: `user["last_interaction"]` parsed with the
      `".%f"` format string. */
  function LastInteractionAsWritten(user: UserRecord): (r: Result<int, PyError>)
    ensures user.lastInteraction.None? ==> r == Failure(KeyError(UserLastInteraction))
    ensures user.lastInteraction.Some? ==> r == ParseTimeAsWritten(user.lastInteraction.value)
  {
    match user.lastInteraction
    case None => Failure(KeyError(UserLastInteraction))
    case Some(tt) => ParseTimeAsWritten(tt)
  }

  /** `check_user_was_interacted_recently` with "now" as a parameter: within three days. */
  function WasInteractedRecently(st: StorageState, username: Username, now: int): (r: Result<bool, PyError>)
    ensures username !in st.interactedUsers ==> r == Success(false)
    ensures username in st.interactedUsers ==>
      (r.Failure? <==> LastInteraction(st.interactedUsers[username]).Failure?)
    ensures username in st.interactedUsers && LastInteraction(st.interactedUsers[username]).Failure? ==>
      r == Failure(LastInteraction(st.interactedUsers[username]).error)
    ensures username in st.interactedUsers && LastInteraction(st.interactedUsers[username]).Success? ==>
      r == Success(now - LastInteraction(st.interactedUsers[username]).value <= 3 * MicrosPerDay)
  {
    if username !in st.interactedUsers then Success(false)
    else
      match LastInteraction(st.interactedUsers[username])
      case Failure(e) => Failure(e)
      case Success(last) => Success(WithinWindow(last, now, 3 * MicrosPerDay))
  }

  /** The same query with the timestamp read by the source's own format string. */
  function WasInteractedRecentlyAsWritten(st: StorageState, username: Username, now: int): (r: Result<bool, PyError>)
    ensures username !in st.interactedUsers ==> r == Success(false)
    ensures (username in st.interactedUsers && st.interactedUsers[username].lastInteraction.None?) ==>
      r == Failure(KeyError(UserLastInteraction))
    ensures (username in st.interactedUsers && st.interactedUsers[username].lastInteraction.Some?
             && st.interactedUsers[username].lastInteraction.value.fraction.None?) ==> r == Failure(ValueError)
    ensures (username in st.interactedUsers && st.interactedUsers[username].lastInteraction.Some?
             && st.interactedUsers[username].lastInteraction.value.fraction.Some?) ==>
      var tt := st.interactedUsers[username].lastInteraction.value;
      r == Success(now - (tt.wholeSeconds * MicrosPerSecond + tt.fraction.value) <= 3 * MicrosPerDay)
  {
    if username !in st.interactedUsers then Success(false)
    else
      match LastInteractionAsWritten(st.interactedUsers[username])
      case Failure(e) => Failure(e)
      case Success(last) => Success(WithinWindow(last, now, 3 * MicrosPerDay))
  }

  /** Users whose last interaction, as `read` reads it, lies within one day of `now`. */
  ghost function LastDayUsersBy(users: map<Username, UserRecord>, now: int, read: UserRecord -> Result<int, PyError>): set<Username> {
    set u | u in users && read(users[u]).Success? && WithinWindow(read(users[u]).value, now, MicrosPerDay)
  }

  /** Users whose last interaction lies within one day of `now`. */
  ghost function LastDayUsers(users: map<Username, UserRecord>, now: int): set<Username> {
    LastDayUsersBy(users, now, LastInteraction)
  }

  /** The loop of `_get_last_day_interactions_count` over every record, reading each time with
      `read`: it raises as soon as one record's time cannot be read. */
  method CountLastDay(users: map<Username, UserRecord>, now: int, read: UserRecord -> Result<int, PyError>)
    returns (r: Result<nat, PyError>)
    ensures r.Failure? <==> exists u :: u in users && read(users[u]).Failure?
    ensures r.Failure? ==> exists u :: u in users && read(users[u]) == Failure(r.error)
    ensures r.Success? ==> r.value == |LastDayUsersBy(users, now, read)|
    ensures r.Success? ==> r.value <= |users|
  {
    var remaining := users.Keys;
    var count := 0;
    ghost var counted: set<Username> := {};
    while remaining != {}
      invariant remaining <= users.Keys
      invariant forall u :: u in users && u !in remaining ==> read(users[u]).Success?
      invariant counted == set u | u in users && u !in remaining && read(users[u]).Success?
                             && WithinWindow(read(users[u]).value, now, MicrosPerDay)
      invariant count == |counted|
      decreases remaining
    {
      var u :| u in remaining;
      match read(users[u]) {
        case Failure(e) =>
          return Failure(e);
        case Success(last) =>
          if WithinWindow(last, now, MicrosPerDay) {
            count := count + 1;
            counted := counted + {u};
          }
      }
      remaining := remaining - {u};
    }
    assert counted == LastDayUsersBy(users, now, read);
    SubsetCardinality(counted, users.Keys);
    r := Success(count);
  }

  /** `_get_last_day_interactions_count` with "now" as a parameter, reading times with the
      corrected reader: it raises only for a record without `last_interaction`. */
  method LastDayInteractionsCount(st: StorageState, now: int) returns (r: Result<nat, PyError>)
    ensures r.Failure? <==> exists u :: u in st.interactedUsers && st.interactedUsers[u].lastInteraction.None?
    ensures r.Failure? ==> r.error == KeyError(UserLastInteraction)
    ensures r.Success? ==> r.value == |LastDayUsers(st.interactedUsers, now)|
    ensures r.Success? ==> r.value <= |st.interactedUsers|
  {
    r := CountLastDay(st.interactedUsers, now, LastInteraction);
  }

  /** `_get_last_day_interactions_count` as written: a record whose time was written at a whole
      second, and so without a fraction, makes it raise ValueError unless an earlier record
      already raised KeyError. */
  method LastDayInteractionsCountAsWritten(st: StorageState, now: int) returns (r: Result<nat, PyError>)
    ensures r.Failure? <==> exists u :: u in st.interactedUsers && LastInteractionAsWritten(st.interactedUsers[u]).Failure?
    ensures (exists u :: u in st.interactedUsers && st.interactedUsers[u].lastInteraction.Some?
                         && st.interactedUsers[u].lastInteraction.value.fraction.None?) ==> r.Failure?
    ensures (forall u :: u in st.interactedUsers ==> st.interactedUsers[u].lastInteraction.Some?) && r.Failure? ==>
      r.error == ValueError
    ensures r.Success? ==> r.value == |LastDayUsersBy(st.interactedUsers, now, LastInteractionAsWritten)|
  {
    r := CountLastDay(st.interactedUsers, now, LastInteractionAsWritten);
  }

  lemma SubsetCardinality<T>(a: set<T>, b: set<T>)
    requires a <= b
    ensures |a| <= |b|
  {
    assert b == a + (b - a);
  }

  /** `is_user_in_whitelist` / `is_user_in_blacklist`: the list membership test `username in list`,
      a scan from the front. */
  method ListContains(list: seq<Username>, username: Username) returns (found: bool)
    ensures found <==> exists i :: 0 <= i < |list| && list[i] == username
  {
    found := false;
    var i := 0;
    while i < |list| && !found
      invariant 0 <= i <= |list|
      invariant found <==> exists j :: 0 <= j < i && list[j] == username
    {
      if list[i] == username {
        found := true;
      }
      i := i + 1;
    }
  }

  method IsUserInWhitelist(st: StorageState, username: Username) returns (r: bool)
    ensures r <==> username in st.whitelist
  {
    r := ListContains(st.whitelist, username);
  }

  method IsUserInBlacklist(st: StorageState, username: Username) returns (r: bool)
    ensures r <==> username in st.blacklist
  {
    r := ListContains(st.blacklist, username);
  }

  /* ---------------- Properties relating the update and the queries ---------------- */

  /** After an update the user is known, and the following status read back is the one derived
      from the flags, never NOT_IN_LIST. */
  lemma AddThenQuery(st: StorageState, username: Username, a: Interaction, now: int)
    ensures WasInteracted(AddInteractedUser(st, username, a, now), username)
    ensures GetFollowingStatus(AddInteractedUser(st, username, a, now), username)
      == Success(DeriveStatus(a.followed, a.unfollowed, a.scraped))
    ensures WasInteractedRecently(AddInteractedUser(st, username, a, now), username, now) == Success(true)
  {
  }

  /** As written, an update made at a whole second makes the recency query raise. */
  lemma AddAtWholeSecondThenRecentlyAsWrittenRaises(st: StorageState, username: Username, a: Interaction, now: int)
    requires now % MicrosPerSecond == 0
    ensures WasInteractedRecentlyAsWritten(AddInteractedUser(st, username, a, now), username, now) == Failure(ValueError)
  {
  }

  /** Queries about other users answer as before the update. */
  lemma AddKeepsOtherUsers(st: StorageState, username: Username, other: Username, a: Interaction, now: int)
    requires other != username
    ensures WasInteracted(AddInteractedUser(st, username, a, now), other) == WasInteracted(st, other)
    ensures GetFollowingStatus(AddInteractedUser(st, username, a, now), other) == GetFollowingStatus(st, other)
    ensures WasInteractedRecently(AddInteractedUser(st, username, a, now), other, now) == WasInteractedRecently(st, other, now)
  {
  }

  /** Two updates of a new user: the counters hold the sums, everything else holds the latest call. */
  lemma AddTwice(st: StorageState, username: Username, a: Interaction, b: Interaction, t1: int, t2: int)
    requires username !in st.interactedUsers
    ensures var r := AddInteractedUser(AddInteractedUser(st, username, a, t1), username, b, t2).interactedUsers[username];
      && r.liked == Some(a.liked + b.liked)
      && r.watched == Some(a.watched + b.watched)
      && r.commented == Some(a.commented + b.commented)
      && r == AddInteractedUser(st, username, b, t2).interactedUsers[username]
                .(liked := r.liked, watched := r.watched, commented := r.commented)
  {
  }

  /** An update made at `now` puts the user among the last day's users at `now`, and leaves every
      other user's membership as it was. */
  lemma AddCountsForLastDay(st: StorageState, username: Username, a: Interaction, now: int)
    ensures LastDayUsers(AddInteractedUser(st, username, a, now).interactedUsers, now)
      == LastDayUsers(st.interactedUsers, now) + {username}
  {
  }

  /** An update with every keyword at its default leaves the user's counters as they were (0 for a
      missing key) and stores status "none" with all three flags false. */
  lemma AddDefaultInteraction(st: StorageState, username: Username, sessionId: string, now: int)
    ensures var prior := RecordOrEmpty(st, username);
      var r := AddInteractedUser(st, username, DefaultInteraction(sessionId), now).interactedUsers[username];
      && r.liked == Some(prior.liked.GetOr(0))
      && r.watched == Some(prior.watched.GetOr(0))
      && r.commented == Some(prior.commented.GetOr(0))
      && r.followingStatus == Some("none")
      && r.followed == Some(false) && r.unfollowed == Some(false) && r.scraped == Some(false)
    ensures GetFollowingStatus(AddInteractedUser(st, username, DefaultInteraction(sessionId), now), username) == Success(NONE)
  {
    var n := Lower(NONE.Name());
    assert n[0] == 'n' && n[1] == 'o' && n[2] == 'n' && n[3] == 'e';
    assert n == "none";
  }

  /** With no entry for the user, both status and recency answer "never interacted". */
  lemma UnknownUser(st: StorageState, username: Username, now: int)
    requires username !in st.interactedUsers
    ensures !WasInteracted(st, username)
    ensures GetFollowingStatus(st, username) == Success(NOT_IN_LIST)
    ensures WasInteractedRecently(st, username, now) == Success(false)
  {
  }
}
