/**
 * The local user/session store (`UserManager`). The browser's local storage
 * is a table from keys to stored values; the store uses two keys, one for the
 * device id and one for the user record. The pure functions below say what
 * each operation returns and what table it leaves; the class `UserStore`
 * holds the table and performs the operations in place.
 *
 * Nondeterministic and remote inputs are parameters: the base-36 text of the
 * random number behind a new device id, the outcome of the IP lookup, the
 * clock, and the outcome of the remote mirror write.
 */
module UserManager {
  import opened Wrappers
  import Decimal

  const USER_KEY := "app_user_data"
  const DEVICE_ID_KEY := "app_device_id"
  /** The IP address recorded when the lookup fails. */
  const UNKNOWN_IP := "Unknown"

  datatype Status = Active | Banned

  datatype User = User(
    id: string,
    name: string,
    deviceId: string,
    ipAddress: string,
    joinDate: string,
    status: Status,
    downloads: nat)

  /** A stored value: plain text (the device id) or a user record (kept JSON-encoded by the app). */
  datatype Stored = Text(text: string) | Record(user: User)

  type Storage = map<string, Stored>

  /** What the IP lookup service yields: the address, or a failed request. */
  datatype IpLookup = IpResolved(ip: string) | IpLookupFailed

  /** What the write to the remote mirror yields; the store only logs it. */
  datatype RemoteOutcome = RemoteSaved | RemoteFailed

  /** The two keys of the store hold values of the kind the store writes there. */
  predicate WellFormed(s: Storage)
  {
    && (DEVICE_ID_KEY in s ==> s[DEVICE_ID_KEY].Text?)
    && (USER_KEY in s ==> s[USER_KEY].Record?)
  }

  // ---------------------------------------------------------------- device id

  predicate IsLowerAscii(c: char)
  {
    'a' <= c <= 'z'
  }

  function ToUpperAscii(c: char): (u: char)
    ensures !IsLowerAscii(u)
    ensures !IsLowerAscii(c) ==> u == c
    ensures IsLowerAscii(c) ==> 'A' <= u <= 'Z' && c as int - u as int == 32
  {
    if IsLowerAscii(c) then (c as int - 32) as char else c
  }

  /** `toUpperCase` on the characters a base-36 rendering can contain. */
  function ToUpper(s: string): (r: string)
    ensures |r| == |s|
    ensures forall i :: 0 <= i < |r| ==> r[i] == ToUpperAscii(s[i])
    ensures forall i :: 0 <= i < |r| ==> !IsLowerAscii(r[i])
  {
    if s == [] then [] else [ToUpperAscii(s[0])] + ToUpper(s[1..])
  }

  /** JavaScript's `s.substr(start, length)` for non-negative arguments. */
  function Substr(s: string, start: nat, length: nat): (r: string)
    ensures |r| <= length
    ensures start <= |s| ==> r == s[start..if start + length <= |s| then start + length else |s|]
    ensures start >= |s| ==> r == []
  {
    var from := if start <= |s| then start else |s|;
    var to := if from + length <= |s| then from + length else |s|;
    s[from..to]
  }

  /**
   * `generateDeviceId`: "DEV" followed by up to nine characters of the random
   * number's base-36 text after its "0." prefix, upper-cased.
   */
  function GenerateDeviceId(randomBase36: string): (id: string)
    ensures 3 <= |id| <= 12 && id[..3] == "DEV"
    ensures forall i :: 3 <= i < |id| ==> !IsLowerAscii(id[i])
    ensures |randomBase36| >= 11 ==> |id| == 12
  {
    "DEV" + ToUpper(Substr(randomBase36, 2, 9))
  }

  predicate IsBase36Digit(c: char)
  {
    '0' <= c <= '9' || 'a' <= c <= 'z'
  }

  predicate IsIdChar(c: char)
  {
    '0' <= c <= '9' || 'A' <= c <= 'Z'
  }

  lemma {:induction false} ToUpperOfBase36(s: string)
    requires forall i :: 0 <= i < |s| ==> IsBase36Digit(s[i])
    ensures forall i :: 0 <= i < |s| ==> IsIdChar(ToUpper(s)[i])
  {
    if s != [] {
      ToUpperOfBase36(s[1..]);
      assert ToUpper(s) == [ToUpperAscii(s[0])] + ToUpper(s[1..]);
    }
  }

  /**
   * When the random number's rendering is "0." followed by base-36 digits, as
   * `Math.random().toString(36)` produces, the id after "DEV" consists of
   * digits and upper-case letters only.
   */
  lemma GeneratedIdAlphabet(digits: string)
    requires forall i :: 0 <= i < |digits| ==> IsBase36Digit(digits[i])
    ensures var id := GenerateDeviceId("0." + digits);
      forall i :: 3 <= i < |id| ==> IsIdChar(id[i])
  {
    var taken := Substr("0." + digits, 2, 9);
    assert forall i :: 0 <= i < |taken| ==> taken[i] == digits[i];
    ToUpperOfBase36(taken);
  }

  /** The device id in the table, when the key holds a non-empty (truthy) string. */
  function DeviceIdIn(s: Storage): (d: Option<string>)
    requires WellFormed(s)
    ensures d.Some? <==> DEVICE_ID_KEY in s && s[DEVICE_ID_KEY].text != ""
    ensures d.Some? ==> d.value == s[DEVICE_ID_KEY].text
  {
    if DEVICE_ID_KEY in s && s[DEVICE_ID_KEY].text != "" then Some(s[DEVICE_ID_KEY].text) else None
  }

  /**
   * `getDeviceId`: the id it returns and the table it leaves. A stored id is
   * returned without writing; otherwise a new id is generated and written.
   */
  function AfterGetDeviceId(s: Storage, randomBase36: string): (r: (string, Storage))
    requires WellFormed(s)
    ensures WellFormed(r.1)
    ensures DeviceIdIn(r.1) == Some(r.0)
    ensures DeviceIdIn(s).Some? ==> r.0 == DeviceIdIn(s).value && r.1 == s
    ensures DeviceIdIn(s).None? ==> r.0 == GenerateDeviceId(randomBase36)
    ensures r.1 - {DEVICE_ID_KEY} == s - {DEVICE_ID_KEY}
  {
    match DeviceIdIn(s)
    case Some(id) => (id, s)
    case None =>
      var id := GenerateDeviceId(randomBase36);
      (id, s[DEVICE_ID_KEY := Text(id)])
  }

  /** A second `getDeviceId` returns the first one's id and writes nothing. */
  lemma GetDeviceIdStable(s: Storage, random1: string, random2: string)
    requires WellFormed(s)
    ensures var (id1, s1) := AfterGetDeviceId(s, random1);
      AfterGetDeviceId(s1, random2) == (id1, s1)
  {
  }

  // ---------------------------------------------------------------- user record

  /** `getUser`: the stored record, or null when none is stored. */
  function UserIn(s: Storage): (u: Option<User>)
    requires WellFormed(s)
    ensures u.Some? <==> USER_KEY in s
    ensures u.Some? ==> s[USER_KEY] == Record(u.value)
  {
    if USER_KEY in s then Some(s[USER_KEY].user) else None
  }

  /** `isFirstTimeUser`: no user record is stored. */
  predicate IsFirstTimeIn(s: Storage)
    requires WellFormed(s)
  {
    UserIn(s).None?
  }

  /** `isUserBanned`: a record is stored and its status is banned. */
  predicate IsBannedIn(s: Storage)
    requires WellFormed(s)
  {
    match UserIn(s)
    case Some(u) => u.status == Banned
    case None => false
  }

  lemma IsBannedInMeaning(s: Storage)
    requires WellFormed(s)
    ensures IsBannedIn(s) <==> USER_KEY in s && s[USER_KEY].user.status == Banned
    ensures USER_KEY !in s ==> !IsBannedIn(s)
  {
  }

  /** `getIPAddress`: the address the lookup returned, or "Unknown" when it failed. */
  function IpAddressOf(lookup: IpLookup): (ip: string)
    ensures lookup.IpLookupFailed? ==> ip == UNKNOWN_IP
    ensures lookup.IpResolved? ==> ip == lookup.ip
  {
    match lookup
    case IpResolved(ip) => ip
    case IpLookupFailed => UNKNOWN_IP
  }

  /** `new Date().toISOString().split('T')[0]`: the text before the first 'T'. */
  function DatePart(isoTimestamp: string): (date: string)
    ensures date <= isoTimestamp
    ensures 'T' !in date
    ensures |date| < |isoTimestamp| ==> isoTimestamp[|date|] == 'T'
  {
    if isoTimestamp == [] || isoTimestamp[0] == 'T' then []
    else [isoTimestamp[0]] + DatePart(isoTimestamp[1..])
  }

  /**
   * `saveUser(name)`: the record it returns and the table it leaves. The
   * device id is fetched (and generated if needed), the record is built and
   * written locally; the remote write's outcome does not enter.
   */
  function AfterSaveUser(
    s: Storage, name: string, randomBase36: string, lookup: IpLookup,
    nowMillis: nat, isoTimestamp: string): (r: (User, Storage))
    requires WellFormed(s)
    ensures WellFormed(r.1)
    ensures UserIn(r.1) == Some(r.0)
    ensures r.0.name == name && r.0.status == Active && r.0.downloads == 0
    ensures r.0.ipAddress == IpAddressOf(lookup)
    ensures r.0.id == Decimal.NatToString(nowMillis) && r.0.joinDate == DatePart(isoTimestamp)
    ensures DeviceIdIn(r.1) == Some(r.0.deviceId)
    ensures DeviceIdIn(s).Some? ==> r.0.deviceId == DeviceIdIn(s).value
    ensures r.1 - {DEVICE_ID_KEY, USER_KEY} == s - {DEVICE_ID_KEY, USER_KEY}
  {
    var (deviceId, s1) := AfterGetDeviceId(s, randomBase36);
    var user := User(Decimal.NatToString(nowMillis), name, deviceId, IpAddressOf(lookup),
                     DatePart(isoTimestamp), Active, 0);
    assert s1 - {DEVICE_ID_KEY, USER_KEY} == s - {DEVICE_ID_KEY, USER_KEY} by {
      assert s1 - {DEVICE_ID_KEY} == s - {DEVICE_ID_KEY};
    }
    (user, s1[USER_KEY := Record(user)])
  }

  /** `incrementDownloads`: the stored record's download count goes up by one; no record, no change. */
  function AfterIncrementDownloads(s: Storage): (r: Storage)
    requires WellFormed(s)
    ensures WellFormed(r)
    ensures UserIn(s).None? ==> r == s
    ensures UserIn(s).Some? ==> (
      && UserIn(r).Some?
      && UserIn(r).value.downloads == UserIn(s).value.downloads + 1
      && UserIn(r).value.(downloads := 0) == UserIn(s).value.(downloads := 0))
    ensures r - {USER_KEY} == s - {USER_KEY}
  {
    match UserIn(s)
    case Some(u) => s[USER_KEY := Record(u.(downloads := u.downloads + 1))]
    case None => s
  }

  /** `incrementDownloads` called `n` times in a row. */
  function AfterIncrements(s: Storage, n: nat): (r: Storage)
    requires WellFormed(s)
    ensures WellFormed(r)
  {
    if n == 0 then s else AfterIncrementDownloads(AfterIncrements(s, n - 1))
  }

  /** After `n` increments the count has grown by exactly `n` and nothing else in the record changed. */
  lemma {:induction false} IncrementsAddUp(s: Storage, n: nat)
    requires WellFormed(s)
    ensures UserIn(s).None? ==> AfterIncrements(s, n) == s
    ensures UserIn(s).Some? ==> (
      && UserIn(AfterIncrements(s, n)).Some?
      && UserIn(AfterIncrements(s, n)).value.downloads == UserIn(s).value.downloads + n
      && UserIn(AfterIncrements(s, n)).value.(downloads := 0) == UserIn(s).value.(downloads := 0))
    ensures AfterIncrements(s, n) - {USER_KEY} == s - {USER_KEY}
  {
    if n > 0 {
      IncrementsAddUp(s, n - 1);
    }
  }

  /** On a freshly saved record, `n` downloads leave the count at exactly `n`. */
  lemma DownloadsCountFromSave(
    s: Storage, name: string, randomBase36: string, lookup: IpLookup,
    nowMillis: nat, isoTimestamp: string, n: nat)
    requires WellFormed(s)
    ensures var (user, s1) := AfterSaveUser(s, name, randomBase36, lookup, nowMillis, isoTimestamp);
      UserIn(AfterIncrements(s1, n)) == Some(user.(downloads := n))
  {
    var (user, s1) := AfterSaveUser(s, name, randomBase36, lookup, nowMillis, isoTimestamp);
    IncrementsAddUp(s1, n);
  }

  /** A fresh table is a first-time user's, and is not after `saveUser`. */
  lemma FirstTimeUntilSaved(name: string, randomBase36: string, lookup: IpLookup, nowMillis: nat, isoTimestamp: string)
    ensures IsFirstTimeIn(map[])
    ensures !IsFirstTimeIn(AfterSaveUser(map[], name, randomBase36, lookup, nowMillis, isoTimestamp).1)
  {
  }

  /** Once a device id is stored, no operation of the store changes it. */
  lemma DeviceIdKept(s: Storage, name: string, randomBase36: string, lookup: IpLookup, nowMillis: nat, isoTimestamp: string)
    requires WellFormed(s) && DeviceIdIn(s).Some?
    ensures DeviceIdIn(AfterGetDeviceId(s, randomBase36).1) == DeviceIdIn(s)
    ensures DeviceIdIn(AfterSaveUser(s, name, randomBase36, lookup, nowMillis, isoTimestamp).1) == DeviceIdIn(s)
    ensures DeviceIdIn(AfterIncrementDownloads(s)) == DeviceIdIn(s)
  {
  }

  /** No local operation bans a user; only the remote administrator does. */
  lemma NoLocalBan(s: Storage, name: string, randomBase36: string, lookup: IpLookup, nowMillis: nat, isoTimestamp: string)
    requires WellFormed(s) && !IsBannedIn(s)
    ensures !IsBannedIn(AfterGetDeviceId(s, randomBase36).1)
    ensures !IsBannedIn(AfterSaveUser(s, name, randomBase36, lookup, nowMillis, isoTimestamp).1)
    ensures !IsBannedIn(AfterIncrementDownloads(s))
  {
  }

  /** `incrementDownloads` keeps a banned user banned and an active one active. */
  lemma IncrementKeepsStatus(s: Storage)
    requires WellFormed(s)
    ensures IsBannedIn(AfterIncrementDownloads(s)) == IsBannedIn(s)
  {
  }

  /**
   * `saveUser` overwrites whatever record was stored: a banned record becomes
   * active again and its download count restarts from zero.
   */
  lemma SaveUserOverwrites(s: Storage, name: string, randomBase36: string, lookup: IpLookup, nowMillis: nat, isoTimestamp: string)
    requires WellFormed(s)
    ensures var s1 := AfterSaveUser(s, name, randomBase36, lookup, nowMillis, isoTimestamp).1;
      !IsBannedIn(s1) && UserIn(s1).value.downloads == 0
  {
  }

  /** The local store as the app holds it: the table, updated in place. */
  class UserStore {
    var storage: Storage

    ghost predicate Valid()
      reads this
    {
      WellFormed(storage)
    }

    /** The store over the table left by earlier runs of the app. */
    constructor (initial: Storage)
      requires WellFormed(initial)
      ensures Valid() && storage == initial
    {
      storage := initial;
    }

    method GetDeviceId(randomBase36: string) returns (deviceId: string)
      requires Valid()
      modifies this
      ensures Valid()
      ensures (deviceId, storage) == AfterGetDeviceId(old(storage), randomBase36)
      ensures DeviceIdIn(storage) == Some(deviceId)
      ensures old(DeviceIdIn(storage)).Some? ==> storage == old(storage)
    {
      if DEVICE_ID_KEY in storage && storage[DEVICE_ID_KEY].text != "" {
        deviceId := storage[DEVICE_ID_KEY].text;
      } else {
        deviceId := GenerateDeviceId(randomBase36);
        storage := storage[DEVICE_ID_KEY := Text(deviceId)];
      }
    }

    /**
     * Builds the record, writes it locally, then attempts the remote write,
     * whose failure is only logged: `remote` has no effect on the result.
     */
    method SaveUser(
      name: string, randomBase36: string, lookup: IpLookup,
      nowMillis: nat, isoTimestamp: string, remote: RemoteOutcome) returns (user: User)
      requires Valid()
      modifies this
      ensures Valid()
      ensures (user, storage) == AfterSaveUser(old(storage), name, randomBase36, lookup, nowMillis, isoTimestamp)
      ensures storage[USER_KEY] == Record(user)
      ensures user.name == name && user.status == Active && user.downloads == 0
    {
      var deviceId := GetDeviceId(randomBase36);
      var ipAddress := IpAddressOf(lookup);
      user := User(Decimal.NatToString(nowMillis), name, deviceId, ipAddress,
                   DatePart(isoTimestamp), Active, 0);
      storage := storage[USER_KEY := Record(user)];
    }

    method GetUser() returns (user: Option<User>)
      requires Valid()
      ensures user.Some? <==> USER_KEY in storage
      ensures user.Some? ==> storage[USER_KEY] == Record(user.value)
    {
      if USER_KEY in storage {
        user := Some(storage[USER_KEY].user);
      } else {
        user := None;
      }
    }

    method IsFirstTimeUser() returns (firstTime: bool)
      requires Valid()
      ensures firstTime <==> USER_KEY !in storage
    {
      var user := GetUser();
      firstTime := user.None?;
    }

    /** Reads the record in place, raises its count and writes it back; the remote update is fire-and-forget. */
    method IncrementDownloads()
      requires Valid()
      modifies this
      ensures Valid()
      ensures storage == AfterIncrementDownloads(old(storage))
    {
      var user := GetUser();
      if user.Some? {
        var u := user.value;
        u := u.(downloads := u.downloads + 1);
        storage := storage[USER_KEY := Record(u)];
      }
    }

    method IsUserBanned() returns (banned: bool)
      requires Valid()
      ensures banned <==> USER_KEY in storage && storage[USER_KEY].user.status == Banned
    {
      var user := GetUser();
      banned := user.Some? && user.value.status == Banned;
    }
  }
}
