/**
 * The browser's key-value storage, the `useData` hook over one of its keys, and the
 * retention sweep of `useDataPersistence`. A stored value is JSON text; `Entry` records
 * what that text parses to, which is all the client ever looks at.
 */
module Storage {
  import opened Wrappers
  import opened Domain
  import opened Text

  datatype Entry =
    | UserList(users: seq<User>)         // a JSON array of users
    | ReportList(reports: seq<Report>)   // a JSON array of reports
    | UserObject(user: User)             // a single user object
    | Stamped(truthy: bool, timestamp: Option<real>)
                                         // an object with a `timestamp` property: whether it
                                         // is truthy, and the number JavaScript's arithmetic
                                         // makes of it (`None` is NaN)
    | Number(n: real)
    | OtherJson(asNumber: Option<real>)  // any other well-formed JSON, with the number a
                                         // relational comparison makes of it (`None` is NaN)
    | EmptyText                          // the empty string (falsy, so defaults apply)
    | Malformed                          // text on which `JSON.parse` throws

  const UsersKey: string := "churchUsers"
  const ReportsKey: string := "churchReports"
  const SessionKey: string := "churchUser"
  const PersistenceKey: string := "dataPersistenceTime"
  const SweepPrefix: string := "church_"
  const DefaultRetentionDays: real := 30.0
  const MsPerDay: int := 1000 * 60 * 60 * 24

  class LocalStorage {
    var items: map<string, Entry>

    constructor(initial: map<string, Entry>)
      ensures items == initial
    {
      items := initial;
    }

    method SetItem(key: string, value: Entry)
      modifies this
      ensures items == old(items)[key := value]
    {
      items := items[key := value];
    }

    method RemoveItem(key: string)
      modifies this
      ensures items == old(items) - {key}
    {
      items := items - {key};
    }

    /**
     * One run of the retention sweep: over a snapshot of the keys, remove each key that
     * starts with `church_` and whose value carries a truthy timestamp more than `days`
     * days old. `days` is the number the comparison makes of the setting (`None` is NaN,
     * which nothing exceeds).
     */
    method Sweep(now: int, days: Option<real>)
      modifies this
      ensures items == Swept(old(items), now, days)
    {
      var pending := items.Keys;
      while pending != {}
        invariant pending <= old(items).Keys
        invariant items == map k | k in old(items) && (k in pending || !Removable(k, old(items)[k], now, days)) :: old(items)[k]
        decreases pending
      {
        var key :| key in pending;
        if StartsWith(key, SweepPrefix) {
          var data := items[key];
          if data.Stamped? && data.truthy && data.timestamp.Some? && days.Some? {
            var daysDiff := (now as real - data.timestamp.value) / MsPerDay as real;
            if daysDiff > days.value {
              items := items - {key};
            }
          }
        }
        pending := pending - {key};
      }
    }

    /**
     * `useDataPersistence`'s timer tick: sweep with the window `daysDiff > persistenceTime`
     * compares against, whatever value the setting holds.
     */
    method SweepWithSetting(now: int, persistenceTime: Entry)
      modifies this
      ensures items == Swept(old(items), now, AsNumber(persistenceTime))
    {
      Sweep(now, AsNumber(persistenceTime));
    }
  }

  /** The JSON text `[]`, which both list forms of `Entry` stand for. */
  predicate IsEmptyArray(e: Entry) {
    (e.UserList? && e.users == []) || (e.ReportList? && e.reports == [])
  }

  /**
   * The number a relational comparison with a number makes of a stored value: a number is
   * itself, an empty array is 0, any other array of objects and any plain object is NaN
   * (`None`), and other JSON values carry their own. The two storage texts that never
   * become a value are read as the empty string (0) and as NaN.
   */
  function AsNumber(e: Entry): (r: Option<real>)
    ensures e.Number? ==> r == Some(e.n)
    ensures IsEmptyArray(e) ==> r == Some(0.0)
    ensures e.UserObject? || e.Stamped? || e.Malformed? ==> r.None?
    ensures (e.UserList? && e.users != []) || (e.ReportList? && e.reports != []) ==> r.None?
  {
    match e
    case UserList(us) => if us == [] then Some(0.0) else None
    case ReportList(rs) => if rs == [] then Some(0.0) else None
    case UserObject(_) => None
    case Stamped(_, _) => None
    case Number(n) => Some(n)
    case OtherJson(v) => v
    case EmptyText => Some(0.0)
    case Malformed => None
  }

  // ----- reading the two collections -----

  /**
   * `JSON.parse(localStorage.getItem('churchUsers') || '[]')` used as a user list:
   * an absent or empty value, and the empty array, read as the empty list; `None` is the
   * case where parsing or the list operations would throw.
   */
  function ReadUsers(items: map<string, Entry>): (r: Option<seq<User>>)
    ensures UsersKey !in items ==> r == Some([])
    ensures UsersKey in items && items[UsersKey].UserList? ==> r == Some(items[UsersKey].users)
    ensures UsersKey in items && IsEmptyArray(items[UsersKey]) ==> r == Some([])
    ensures r.None? <==> UsersKey in items && !items[UsersKey].UserList? && !items[UsersKey].EmptyText?
                         && !IsEmptyArray(items[UsersKey])
  {
    if UsersKey !in items then Some([])
    else match items[UsersKey]
      case UserList(us) => Some(us)
      case ReportList(rs) => if rs == [] then Some([]) else None
      case EmptyText => Some([])
      case _ => None
  }

  /** The same for `churchReports`. */
  function ReadReports(items: map<string, Entry>): (r: Option<seq<Report>>)
    ensures ReportsKey !in items ==> r == Some([])
    ensures ReportsKey in items && items[ReportsKey].ReportList? ==> r == Some(items[ReportsKey].reports)
    ensures ReportsKey in items && IsEmptyArray(items[ReportsKey]) ==> r == Some([])
    ensures r.None? <==> ReportsKey in items && !items[ReportsKey].ReportList? && !items[ReportsKey].EmptyText?
                         && !IsEmptyArray(items[ReportsKey])
  {
    if ReportsKey !in items then Some([])
    else match items[ReportsKey]
      case ReportList(rs) => Some(rs)
      case UserList(us) => if us == [] then Some([]) else None
      case EmptyText => Some([])
      case _ => None
  }

  // ----- useData -----

  /**
   * The hook's initial value: `initialValue` when a data source is given; otherwise the
   * parsed stored value, falling back to `initialValue` for an absent or empty key and on
   * a parse error.
   */
  function InitialValue(items: map<string, Entry>, key: string, initialValue: Entry, hasDataSource: bool): (v: Entry)
    ensures hasDataSource ==> v == initialValue
    ensures !hasDataSource && key in items && !items[key].EmptyText? && !items[key].Malformed? ==> v == items[key]
    ensures !hasDataSource && (key !in items || items[key].EmptyText? || items[key].Malformed?) ==> v == initialValue
  {
    if hasDataSource then initialValue
    else if key !in items then initialValue
    else match items[key]
      case EmptyText => initialValue
      case Malformed => initialValue
      case stored => stored
  }

  /** With nothing stored, the retention window starts at its 30-day default. */
  lemma DefaultRetentionWindow(items: map<string, Entry>)
    requires PersistenceKey !in items
    ensures InitialValue(items, PersistenceKey, Number(DefaultRetentionDays), false) == Number(30.0)
  {
  }

  /** `useData(key, initialValue, dataSource?)`: the hook's state and its setter. */
  class DataHook {
    const key: string
    const hasDataSource: bool
    const storage: LocalStorage
    var storedValue: Entry
    /** The values handed to the data source's `save`, oldest first. */
    var saved: seq<Entry>

    constructor(key: string, initialValue: Entry, hasDataSource: bool, storage: LocalStorage)
      ensures this.key == key && this.hasDataSource == hasDataSource && this.storage == storage
      ensures storedValue == InitialValue(storage.items, key, initialValue, hasDataSource)
      ensures saved == []
    {
      this.key := key;
      this.hasDataSource := hasDataSource;
      this.storage := storage;
      storedValue := InitialValue(storage.items, key, initialValue, hasDataSource);
      saved := [];
    }

    /**
     * `setValue(f)`: the new state is `f(current)`; it is written under the same key,
     * or handed to the data source when there is one. A plain value `v` is `_ => v`.
     */
    method SetValue(update: Entry -> Entry)
      modifies this, storage
      ensures storedValue == update(old(storedValue))
      ensures !hasDataSource ==> storage.items == old(storage.items)[key := storedValue] && saved == old(saved)
      ensures hasDataSource ==> storage.items == old(storage.items) && saved == old(saved) + [storedValue]
    {
      var valueToStore := update(storedValue);
      storedValue := valueToStore;
      if hasDataSource {
        saved := saved + [valueToStore];
      } else {
        storage.SetItem(key, valueToStore);
      }
    }
  }

  // ----- the retention sweep -----

  /** The value's `timestamp` is truthy and more than `days` days before `now`. */
  predicate Expired(e: Entry, now: int, days: Option<real>) {
    && e.Stamped? && e.truthy && e.timestamp.Some? && days.Some?
    && (now as real - e.timestamp.value) / MsPerDay as real > days.value
  }

  predicate Removable(key: string, e: Entry, now: int, days: Option<real>) {
    StartsWith(key, SweepPrefix) && Expired(e, now, days)
  }

  /** The storage after one sweep. */
  function Swept(items: map<string, Entry>, now: int, days: Option<real>): (r: map<string, Entry>)
    ensures forall k :: k in r <==> k in items && !Removable(k, items[k], now, days)
    ensures forall k :: k in r ==> r[k] == items[k]
  {
    map k | k in items && !Removable(k, items[k], now, days) :: items[k]
  }

  /** The day threshold is the same as comparing elapsed milliseconds with `days` whole days. */
  lemma ExpiredInMilliseconds(e: Entry, now: int, days: real)
    requires e.Stamped? && e.truthy && e.timestamp.Some?
    ensures Expired(e, now, Some(days)) <==> now as real - e.timestamp.value > days * MsPerDay as real
  {
    var elapsed := now as real - e.timestamp.value;
    var m := MsPerDay as real;
    assert elapsed / m * m == elapsed;
  }

  /**
   * Keys without the prefix, and values without a truthy timestamp that is a number, always
   * survive.
   */
  lemma SweepKeeps(items: map<string, Entry>, now: int, days: Option<real>, key: string)
    requires key in items
    requires !StartsWith(key, SweepPrefix) || !items[key].Stamped? || !items[key].truthy || items[key].timestamp.None?
    ensures key in Swept(items, now, days) && Swept(items, now, days)[key] == items[key]
  {
  }

  /** A setting that compares as NaN (an object, or an array of records) never removes anything. */
  lemma NaNSettingKeepsAll(items: map<string, Entry>, now: int, setting: Entry)
    requires AsNumber(setting).None?
    ensures Swept(items, now, AsNumber(setting)) == items
  {
  }

  /**
   * A setting that compares as 0 (`null`, `false`, `[]`, `"0"`) removes every `church_` key
   * whose truthy timestamp lies in the past, however recent.
   */
  lemma ZeroSettingRemovesPastStamps(items: map<string, Entry>, now: int, setting: Entry, key: string)
    requires AsNumber(setting) == Some(0.0)
    requires key in items && StartsWith(key, SweepPrefix)
    requires items[key].Stamped? && items[key].truthy && items[key].timestamp.Some?
    requires items[key].timestamp.value < now as real
    ensures key !in Swept(items, now, AsNumber(setting))
  {
    var elapsed := now as real - items[key].timestamp.value;
    assert elapsed / MsPerDay as real > 0.0;
  }

  /** The collections and the session never match the `church_` prefix, so no sweep removes them. */
  lemma SweepSparesAppKeys(items: map<string, Entry>, now: int, days: Option<real>)
    ensures forall k :: k in {UsersKey, ReportsKey, SessionKey, PersistenceKey} && k in items ==>
              k in Swept(items, now, days) && Swept(items, now, days)[k] == items[k]
  {
    assert UsersKey[6] != SweepPrefix[6];
    assert ReportsKey[6] != SweepPrefix[6];
    assert SessionKey[6] != SweepPrefix[6];
    assert PersistenceKey[0] != SweepPrefix[0];
  }

  /** A second sweep at the same moment removes nothing more. */
  lemma SweepIdempotent(items: map<string, Entry>, now: int, days: Option<real>)
    ensures Swept(Swept(items, now, days), now, days) == Swept(items, now, days)
  {
  }
}
