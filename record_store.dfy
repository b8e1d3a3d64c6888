/**
 * The server's in-memory collections (notifications, admins, users): each is a module-level
 * array of untyped JSON objects that the CRUD handlers change in place. One `Store` class
 * models the array and the four handlers that all three controllers share.
 */
module RecordStore {
  import opened Wrappers

  /** A JSON value as it arrives in a request body. */
  datatype Json = JNull | JBool(b: bool) | JNum(n: real) | JStr(s: string) | JArr(elems: seq<Json>) | JObj(fields: map<string, Json>)

  /** A stored record: a JSON object. */
  type Record = map<string, Json>

  /** What a handler sends back; `Status` gives the HTTP status code. */
  datatype Reply =
    | Listed(records: seq<Record>)
    | Created(record: Record)
    | Updated(record: Record)
    | Deleted(removed: seq<Record>)
    | Combined(admins: seq<Record>, users: seq<Record>)
    | NotFound(message: string)

  function Status(reply: Reply): (code: int)
    ensures code == 404 <==> reply.NotFound?
    ensures code == 201 <==> reply.Created?
    ensures code in {200, 201, 404}
  {
    match reply
    case Created(_) => 201
    case NotFound(_) => 404
    case _ => 200
  }

  // ----- parseInt -----

  /**
   * The characters `parseInt` skips: JavaScript's white space (tab, vertical tab, form feed,
   * space, no-break space, the byte-order mark and the other space separators) and its line
   * terminators.
   */
  predicate IsSpace(c: char) {
    || c == ' ' || c == '\t' || c == '\n' || c == '\r' || c as int == 0x0B || c as int == 0x0C
    || c as int == 0xA0 || c as int == 0x1680 || 0x2000 <= c as int <= 0x200A
    || c as int == 0x2028 || c as int == 0x2029 || c as int == 0x202F || c as int == 0x205F
    || c as int == 0x3000 || c as int == 0xFEFF
  }

  function TrimStart(s: string): (r: string)
    ensures |r| <= |s| && r == s[|s| - |r|..]
    ensures r == [] || !IsSpace(r[0])
    ensures forall i :: 0 <= i < |s| - |r| ==> IsSpace(s[i])
  {
    if s != [] && IsSpace(s[0]) then TrimStart(s[1..]) else s
  }

  /** The value of `c` as a digit in base `radix` (10 or 16), or -1. */
  function DigitOf(c: char, radix: int): (d: int)
    ensures -1 <= d < 16
    ensures radix == 10 ==> d < 10 && (d >= 0 <==> '0' <= c <= '9')
  {
    if '0' <= c <= '9' then c as int - '0' as int
    else if radix == 16 && 'a' <= c <= 'f' then c as int - 'a' as int + 10
    else if radix == 16 && 'A' <= c <= 'F' then c as int - 'A' as int + 10
    else -1
  }

  /** The number of leading characters of `s` that are digits in base `radix`. */
  function DigitRun(s: string, radix: int): (n: nat)
    ensures n <= |s|
    ensures forall i :: 0 <= i < n ==> DigitOf(s[i], radix) >= 0
    ensures n < |s| ==> DigitOf(s[n], radix) < 0
  {
    if s == [] || DigitOf(s[0], radix) < 0 then 0 else 1 + DigitRun(s[1..], radix)
  }

  /** The number a string of digits denotes in base `radix`. */
  function DigitsValue(s: string, radix: int): (v: int)
    requires radix == 10 || radix == 16
    requires forall i :: 0 <= i < |s| ==> DigitOf(s[i], radix) >= 0
    ensures v >= 0
  {
    if s == [] then 0 else DigitsValue(s[..|s| - 1], radix) * radix + DigitOf(s[|s| - 1], radix)
  }

  /**
   * `parseInt(s)`: skip leading white space, read an optional sign and an optional `0x`
   * prefix (base 16), then the longest run of digits; no digit at all gives `NaN` (`None`).
   * Trailing characters are ignored.
   */
  function ParseInt(s: string): (r: Option<int>)
    ensures r.Some? ==> exists i :: 0 <= i < |s| && '0' <= s[i] <= '9'
    ensures r.Some? && r.value < 0 ==> TrimStart(s) != [] && TrimStart(s)[0] == '-'
  {
    var t := TrimStart(s);
    var r := ParseSigned(t);
    assert r.Some? ==> exists i :: 0 <= i < |s| && '0' <= s[i] <= '9' by {
      if r.Some? {
        var i :| 0 <= i < |t| && '0' <= t[i] <= '9';
        assert s[|s| - |t| + i] == t[i];
      }
    }
    r
  }

  /** After the white space: an optional sign, then the unsigned number. */
  function ParseSigned(t: string): (r: Option<int>)
    ensures r.Some? ==> exists i :: 0 <= i < |t| && '0' <= t[i] <= '9'
    ensures r.Some? && r.value < 0 ==> t != [] && t[0] == '-'
  {
    if |t| > 0 && t[0] == '-' then
      match ParseUnsigned(t[1..])
      case None => None
      case Some(v) => Some(-v)
    else if |t| > 0 && t[0] == '+' then ParseUnsigned(t[1..])
    else ParseUnsigned(t)
  }

  /** After the sign: a `0x` or `0X` prefix selects base 16, otherwise base 10. */
  function ParseUnsigned(u: string): (r: Option<int>)
    ensures r.Some? ==> r.value >= 0 && u != [] && '0' <= u[0] <= '9'
  {
    if |u| >= 2 && u[0] == '0' && (u[1] == 'x' || u[1] == 'X') then LeadingDigits(u[2..], 16)
    else LeadingDigits(u, 10)
  }

  /** The value of the longest run of leading digits, or `None` when there is none. */
  function LeadingDigits(w: string, radix: int): (r: Option<int>)
    requires radix == 10 || radix == 16
    ensures r.Some? <==> w != [] && DigitOf(w[0], radix) >= 0
    ensures r.Some? ==> r.value >= 0
  {
    var n := DigitRun(w, radix);
    if n == 0 then None
    else
      var digits := w[..n];
      assert forall i :: 0 <= i < |digits| ==> digits[i] == w[i];
      Some(DigitsValue(digits, radix))
  }

  /** `String(n)`: the decimal digits of a natural number. */
  function DecimalString(n: nat): (s: string)
    ensures |s| >= 1
    ensures forall i :: 0 <= i < |s| ==> '0' <= s[i] <= '9'
    ensures s[0] == '0' ==> n == 0
  {
    if n < 10 then [('0' as int + n) as char]
    else DecimalString(n / 10) + [('0' as int + n % 10) as char]
  }

  lemma {:induction false} DecimalValue(n: nat)
    ensures DigitsValue(DecimalString(n), 10) == n
  {
    if n >= 10 {
      var s := DecimalString(n);
      assert s[..|s| - 1] == DecimalString(n / 10);
      DecimalValue(n / 10);
    }
  }

  lemma {:induction false} DigitRunAll(s: string, radix: int)
    requires forall i :: 0 <= i < |s| ==> DigitOf(s[i], radix) >= 0
    ensures DigitRun(s, radix) == |s|
  {
    if s != [] {
      DigitRunAll(s[1..], radix);
    }
  }

  /** An id written in decimal, as in `/api/users/3`, parses back to that id. */
  lemma ParseDecimalRoundTrip(n: nat)
    ensures ParseInt(DecimalString(n)) == Some(n)
  {
    var s := DecimalString(n);
    assert TrimStart(s) == s by {
      assert !IsSpace(s[0]);
    }
    assert ParseSigned(s) == ParseUnsigned(s) by {
      assert s[0] != '-' && s[0] != '+';
    }
    assert ParseUnsigned(s) == LeadingDigits(s, 10) by {
      if s[0] == '0' {
        assert n == 0;
        assert |s| == 1;
      }
    }
    LeadingDigitsAll(s, 10);
    DecimalValue(n);
  }

  /** Leading white space, such as a `%20` in the URL, does not change the parse. */
  lemma ParseIntSkipsSpace(c: char, s: string)
    requires IsSpace(c)
    ensures ParseInt([c] + s) == ParseInt(s)
  {
    var t := [c] + s;
    assert t != [] && IsSpace(t[0]) && t[1..] == s;
  }

  /**
   * Text after the digits, as in `/api/users/3abc`, is ignored, unless it turns a lone `0`
   * into the `0x` prefix.
   */
  lemma ParseDecimalIgnoresTail(n: nat, tail: string)
    requires tail == [] || (DigitOf(tail[0], 10) < 0 && tail[0] != 'x' && tail[0] != 'X')
    ensures ParseInt(DecimalString(n) + tail) == Some(n)
  {
    var d := DecimalString(n);
    var s := d + tail;
    assert s[0] == d[0];
    assert |s| >= 2 && s[0] == '0' ==> s[1] == tail[0] by {
      if |s| >= 2 && s[0] == '0' {
        assert n == 0 && |d| == 1;
      }
    }
    UnprefixedDecimal(s);
    LeadingDigitsPrefix(d, tail, 10);
    DecimalValue(n);
  }

  /** Text that starts with a decimal digit and no `0x` prefix is read as decimal digits. */
  lemma UnprefixedDecimal(s: string)
    requires s != [] && '0' <= s[0] <= '9'
    requires !(|s| >= 2 && s[0] == '0' && (s[1] == 'x' || s[1] == 'X'))
    ensures ParseInt(s) == LeadingDigits(s, 10)
  {
    assert TrimStart(s) == s by {
      assert !IsSpace(s[0]);
    }
    assert ParseSigned(s) == ParseUnsigned(s);
  }

  /** The leading digits of digits followed by a non-digit are those digits. */
  lemma LeadingDigitsPrefix(d: string, tail: string, radix: int)
    requires radix == 10 || radix == 16
    requires d != [] && forall i :: 0 <= i < |d| ==> DigitOf(d[i], radix) >= 0
    requires tail == [] || DigitOf(tail[0], radix) < 0
    ensures LeadingDigits(d + tail, radix) == Some(DigitsValue(d, radix))
  {
    DigitRunPrefix(d, tail, radix);
    assert (d + tail)[..|d|] == d;
  }

  /** The digit run of an all-digit string ends where a non-digit follows it. */
  lemma {:induction false} DigitRunPrefix(d: string, tail: string, radix: int)
    requires forall i :: 0 <= i < |d| ==> DigitOf(d[i], radix) >= 0
    requires tail == [] || DigitOf(tail[0], radix) < 0
    ensures DigitRun(d + tail, radix) == |d|
  {
    if d != [] {
      assert (d + tail)[1..] == d[1..] + tail;
      DigitRunPrefix(d[1..], tail, radix);
    }
  }

  /** Strict equality: a record whose `id` is the string `"3"` is never the record with id 3. */
  lemma TextIdNeverMatches(rec: Record, n: int)
    requires "id" in rec && rec["id"].JStr?
    ensures !HasId(rec, n)
  {
  }

  /** A string made only of digits is read whole. */
  lemma LeadingDigitsAll(s: string, radix: int)
    requires radix == 10 || radix == 16
    requires s != [] && forall i :: 0 <= i < |s| ==> DigitOf(s[i], radix) >= 0
    ensures LeadingDigits(s, radix) == Some(DigitsValue(s, radix))
  {
    DigitRunAll(s, radix);
    assert s[..|s|] == s;
  }

  /** A parameter without any digit, such as `abc`, gives `NaN`. */
  lemma NoDigitsIsNaN(s: string)
    requires forall i :: 0 <= i < |s| ==> DigitOf(s[i], 16) < 0
    ensures ParseInt(s) == None
  {
  }

  // ----- records -----

  /** `record.id === n` (strict equality: only a JSON number equal to `n` matches). */
  predicate HasId(rec: Record, n: int) {
    "id" in rec && rec["id"] == JNum(n as real)
  }

  /** `collection.findIndex(r => r.id === parseInt(param))`; `NaN` never matches. */
  function FirstWithId(rs: seq<Record>, target: Option<int>): (r: Option<nat>)
    ensures target.None? ==> r.None?
    ensures r.Some? ==> r.value < |rs| && HasId(rs[r.value], target.value)
                        && forall j :: 0 <= j < r.value ==> !HasId(rs[j], target.value)
    ensures r.None? && target.Some? ==> forall j :: 0 <= j < |rs| ==> !HasId(rs[j], target.value)
  {
    if target.None? || rs == [] then None
    else if HasId(rs[0], target.value) then Some(0)
    else
      match FirstWithId(rs[1..], target)
      case None => None
      case Some(i) => Some(i + 1)
  }

  /** The first index holding id `n` is what `FirstWithId` finds. */
  lemma {:induction false} FirstWithIdAt(rs: seq<Record>, n: int, i: nat)
    requires i < |rs| && HasId(rs[i], n)
    requires forall j :: 0 <= j < i ==> !HasId(rs[j], n)
    ensures FirstWithId(rs, Some(n)) == Some(i)
  {
    if i > 0 {
      FirstWithIdAt(rs[1..], n, i - 1);
    }
  }

  /** `{ id: length + 1, ...body }`: the spread comes last, so a body `id` wins. */
  function NewRecord(length: nat, body: Record): (r: Record)
    ensures r.Keys == body.Keys + {"id"}
    ensures forall k :: k in body ==> r[k] == body[k]
    ensures "id" !in body ==> HasId(r, length + 1)
  {
    map["id" := JNum((length + 1) as real)] + body
  }

  /** `{ ...current, ...body }`: body fields override, the other fields are kept. */
  function Merge(current: Record, body: Record): (r: Record)
    ensures r.Keys == current.Keys + body.Keys
    ensures forall k :: k in body ==> r[k] == body[k]
    ensures forall k :: k in current && k !in body ==> r[k] == current[k]
  {
    current + body
  }

  // ----- the handlers' effect on a collection -----

  ghost predicate Creates(before: seq<Record>, after: seq<Record>, body: Record, reply: Reply) {
    after == before + [NewRecord(|before|, body)] && reply == Created(NewRecord(|before|, body))
  }

  ghost predicate Updates(before: seq<Record>, after: seq<Record>, param: string, body: Record, reply: Reply, message: string) {
    match FirstWithId(before, ParseInt(param))
    case None => after == before && reply == NotFound(message)
    case Some(i) =>
      && |after| == |before|
      && after[i] == Merge(before[i], body)
      && (forall j :: 0 <= j < |before| && j != i ==> after[j] == before[j])
      && reply == Updated(after[i])
  }

  ghost predicate Deletes(before: seq<Record>, after: seq<Record>, param: string, reply: Reply, message: string) {
    match FirstWithId(before, ParseInt(param))
    case None => after == before && reply == NotFound(message)
    case Some(i) => after == before[..i] + before[i + 1..] && reply == Deleted([before[i]])
  }

  /**
   * Ids are not kept unique: when the last record carries the id `length` (as it does when
   * ids were handed out in order) and an earlier record is deleted, the next created record
   * receives that same id.
   */
  lemma {:induction false} CreateAfterDeleteReusesId(rs: seq<Record>, i: nat, body: Record)
    requires i < |rs| - 1 && HasId(rs[|rs| - 1], |rs|) && "id" !in body
    ensures var afterDelete := rs[..i] + rs[i + 1..];
            var afterCreate := afterDelete + [NewRecord(|afterDelete|, body)];
            |afterCreate| == |rs| && HasId(afterCreate[|rs| - 2], |rs|) && HasId(afterCreate[|rs| - 1], |rs|)
  {
    var afterDelete := rs[..i] + rs[i + 1..];
    assert afterDelete[|afterDelete| - 1] == rs[|rs| - 1];
  }

  /** The `findIndex` loop: the first position holding id `n`. */
  method Scan(rs: seq<Record>, n: int) returns (index: Option<nat>)
    ensures index == FirstWithId(rs, Some(n))
  {
    var i := 0;
    while i < |rs|
      invariant 0 <= i <= |rs|
      invariant forall j :: 0 <= j < i ==> !HasId(rs[j], n)
    {
      if HasId(rs[i], n) {
        FirstWithIdAt(rs, n, i);
        return Some(i);
      }
      i := i + 1;
    }
    return None;
  }

  /** One in-memory collection and the handlers that read and change it. */
  class Store {
    var records: seq<Record>
    const notFoundMessage: string

    constructor(initial: seq<Record>, notFoundMessage: string)
      ensures records == initial && this.notFoundMessage == notFoundMessage
    {
      records := initial;
      this.notFoundMessage := notFoundMessage;
    }

    /** `res.json(collection)`: the collection as it is, unchanged. */
    method List() returns (reply: Reply)
      ensures reply == Listed(records)
    {
      reply := Listed(records);
    }

    /** The `findIndex` lookup shared by update and delete. */
    method FindIndex(param: string) returns (index: Option<nat>)
      ensures index == FirstWithId(records, ParseInt(param))
    {
      var target := ParseInt(param);
      if target.None? {
        return None;
      }
      index := Scan(records, target.value);
    }

    /** `create`: appends `{ id: length + 1, ...body }` and answers 201 with it. */
    method Create(body: Record) returns (reply: Reply)
      modifies this
      ensures Creates(old(records), records, body, reply)
      ensures |records| == |old(records)| + 1 && old(records) <= records
    {
      var created := NewRecord(|records|, body);
      records := records + [created];
      reply := Created(created);
    }

    /** `update`: merges `body` into the first record whose id is `parseInt(param)`, or 404. */
    method Update(param: string, body: Record) returns (reply: Reply)
      modifies this
      ensures Updates(old(records), records, param, body, reply, notFoundMessage)
    {
      var index := FindIndex(param);
      if index.None? {
        return NotFound(notFoundMessage);
      }
      var i := index.value;
      records := records[i := Merge(records[i], body)];
      reply := Updated(records[i]);
    }

    /** `delete`: splices out the first record whose id is `parseInt(param)`, or 404. */
    method Delete(param: string) returns (reply: Reply)
      modifies this
      ensures Deletes(old(records), records, param, reply, notFoundMessage)
      ensures reply.Deleted? ==> |records| == |old(records)| - 1 && |reply.removed| == 1
    {
      var index := FindIndex(param);
      if index.None? {
        return NotFound(notFoundMessage);
      }
      var i := index.value;
      var removed := [records[i]];
      records := records[..i] + records[i + 1..];
      reply := Deleted(removed);
    }
  }
}
