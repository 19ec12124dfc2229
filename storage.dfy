/**
 * The request store: one table of request records with create, point
 * lookups by id and by ticket, a filtered list ordered by creation time,
 * and a status update. The table's CHECK constraints are the store's
 * invariant; an insert or update that would break one fails and changes
 * nothing. The clock, the random UUID and the database-generated row id
 * and timestamp are parameters.
 */
module Storage {
  import opened Wrappers
  import opened Text
  import Json
  import opened Schema

  /** A stored request: the insert payload plus the generated columns. */
  datatype Request = Request(
    id: string,
    role: string,
    fullName: string,
    email: string,
    phone: string,
    address: string,
    unit: Option<string>,
    company: Option<string>,
    requestType: string,
    preferredDateTime: Option<string>,
    accessInstructions: Option<string>,
    budgetRange: Option<string>,
    entryPermission: Option<string>,
    description: string,
    files: Option<string>,
    consent: bool,
    status: string,
    ticketId: string,
    createdAt: string,
    updatedAt: string)

  /**
   * What an insert draws from outside the program: the row id the database
   * generates, the millisecond clock, a random UUID, and the database's
   * `datetime('now')` text.
   */
  datatype Generated = Generated(rowId: string, nowMillis: nat, uuid: string, sqlNow: string)

  const Roles: seq<string> := ["landlord", "tenant"]
  const Statuses: seq<string> := ["new", "in-progress", "closed"]
  const DefaultStatus: string := "new"

  /** The CHECK constraints of the table; `consent` is a boolean and so always 0 or 1. */
  predicate Admissible(r: Request)
  {
    r.role in Roles && r.status in Statuses
  }

  predicate HasId(rows: seq<Request>, id: string)
  {
    exists i :: 0 <= i < |rows| && rows[i].id == id
  }

  /** The primary key: no two rows share an id. */
  predicate UniqueIds(rows: seq<Request>)
  {
    forall i, j :: 0 <= i < j < |rows| ==> rows[i].id != rows[j].id
  }

  // ---------------------------------------------------------------------------
  // Ticket id

  function Prefix8(uuid: string): string
  {
    if |uuid| <= 8 then uuid else uuid[..8]
  }

  /** `9SR-` + the clock in upper-case base 36 + `-` + the first 8 characters of the UUID, upper-cased. */
  function TicketId(nowMillis: nat, uuid: string): (t: string)
    ensures StartsWith(t, "9SR-")
    ensures |uuid| >= 8 ==> |t| == 13 + |Radix(nowMillis, 36)|
  {
    "9SR-" + ToUpper(Radix(nowMillis, 36)) + "-" + ToUpper(Prefix8(uuid))
  }

  /** The creation time a ticket id encodes, if it has the ticket shape. */
  function TicketTime(ticket: string): Option<nat>
  {
    var parts := Split(ticket, '-');
    if |parts| == 3 && parts[0] == "9SR" then DigitsValue(parts[1], 36) else None
  }

  lemma {:induction false} UpperFree(s: string, c: char)
    requires c !in s && !('A' <= c <= 'Z')
    ensures c !in ToUpper(s)
  {
    forall i | 0 <= i < |s|
      ensures ToUpper(s)[i] != c
    {
      assert s[i] != c;
    }
  }

  lemma TicketSplit(stamp: string, tail: string)
    requires '-' !in stamp && '-' !in tail
    ensures Split("9SR-" + stamp + "-" + tail, '-') == ["9SR", stamp, tail]
  {
    assert "9SR-" + stamp + "-" + tail == "9SR" + ['-'] + (stamp + ['-'] + tail);
    SplitAfter("9SR", '-', stamp + ['-'] + tail);
    SplitAfter(stamp, '-', tail);
    SplitFree(tail, '-');
  }

  /** The ticket id gives back the clock value it was made from. */
  lemma {:induction false} TicketTimeRoundTrip(nowMillis: nat, uuid: string)
    requires '-' !in Prefix8(uuid)
    ensures TicketTime(TicketId(nowMillis, uuid)) == Some(nowMillis)
  {
    var digits := Radix(nowMillis, 36);
    RadixShape(nowMillis, 36);
    assert '-' !in digits by {
      forall i | 0 <= i < |digits|
        ensures digits[i] != '-'
      {
        assert DigitValue(digits[i]).Some?;
      }
    }
    UpperFree(digits, '-');
    UpperFree(Prefix8(uuid), '-');
    RadixRoundTrip(nowMillis, 36);
    TicketSplit(ToUpper(digits), ToUpper(Prefix8(uuid)));
  }

  // ---------------------------------------------------------------------------
  // Files column

  /** An array becomes its JSON text, a non-empty text is kept, anything else is NULL. */
  function NormalizeFiles(files: FilesValue): (r: Option<string>)
    ensures files.FilesList? ==> r.Some? && Json.Parse(r.value) == Some(files.names)
    ensures files.FilesText? && files.text != "" ==> r == Some(files.text)
    ensures (files.NoFiles? || files == FilesText("")) ==> r == None
  {
    match files
    case FilesList(names) =>
      Json.ParseStringify(names);
      Some(Json.Stringify(names))
    case FilesText(text) => if text != "" then Some(text) else None
    case NoFiles => None
  }

  // ---------------------------------------------------------------------------
  // Record construction

  /** The row an insert of `data` produces. */
  function Inserted(data: InsertRequest, gen: Generated): Request
  {
    Request(
      gen.rowId, data.role, data.fullName, data.email, data.phone, data.address,
      data.unit, data.company, data.requestType, data.preferredDateTime,
      data.accessInstructions, data.budgetRange, data.entryPermission, data.description,
      NormalizeFiles(data.files), data.consent, DefaultStatus,
      TicketId(gen.nowMillis, gen.uuid), gen.sqlNow, gen.sqlNow)
  }

  /** The insert payload a stored row was made from, reading the files column back as text. */
  function Payload(r: Request): InsertRequest
  {
    InsertRequest(
      r.role, r.fullName, r.email, r.phone, r.address, r.unit, r.company, r.requestType,
      r.preferredDateTime, r.accessInstructions, r.budgetRange, r.entryPermission,
      r.description, if r.files.Some? then FilesText(r.files.value) else NoFiles, r.consent)
  }

  /**
   * A created record carries every input field unchanged: reading the payload
   * back gives the input (for the text-or-absent files the validators produce),
   * status is `new`, both timestamps are the insert time, and the ticket
   * encodes the clock.
   */
  lemma InsertedCarries(data: InsertRequest, gen: Generated)
    requires data.files.NoFiles? || (data.files.FilesText? && data.files.text != "")
    requires '-' !in Prefix8(gen.uuid)
    ensures Payload(Inserted(data, gen)) == data
    ensures Inserted(data, gen).status == "new"
    ensures Inserted(data, gen).createdAt == Inserted(data, gen).updatedAt == gen.sqlNow
    ensures TicketTime(Inserted(data, gen).ticketId) == Some(gen.nowMillis)
  {
    TicketTimeRoundTrip(gen.nowMillis, gen.uuid);
  }

  // ---------------------------------------------------------------------------
  // Lookups

  datatype Column = IdColumn | TicketColumn

  function Key(r: Request, column: Column): string
  {
    match column
    case IdColumn => r.id
    case TicketColumn => r.ticketId
  }

  /** Row `i` is the first whose column holds `key`. */
  predicate FirstAt(rows: seq<Request>, column: Column, key: string, i: int)
  {
    0 <= i < |rows| && Key(rows[i], column) == key && forall j :: 0 <= j < i ==> Key(rows[j], column) != key
  }

  /** The first row whose column holds `key`. */
  function FindFirst(rows: seq<Request>, column: Column, key: string): (r: Option<Request>)
    ensures r.None? <==> forall i :: 0 <= i < |rows| ==> Key(rows[i], column) != key
    ensures r.Some? ==> exists i :: FirstAt(rows, column, key, i) && rows[i] == r.value
  {
    if |rows| == 0 then None
    else if Key(rows[0], column) == key then Some(rows[0])
    else
      var r := FindFirst(rows[1..], column, key);
      if r.Some? then
        ghost var i :| FirstAt(rows[1..], column, key, i) && rows[1..][i] == r.value;
        assert FirstAt(rows, column, key, i + 1);
        r
      else r
  }

  // ---------------------------------------------------------------------------
  // Listing

  /**
   * TEXT comparison as SQLite's binary collation does it: code point by code
   * point, a proper prefix first. (UTF-8 byte order and code point order agree.)
   */
  predicate LexLe(a: string, b: string)
    decreases |a|
  {
    |a| == 0 || (|b| > 0 && (a[0] < b[0] || (a[0] == b[0] && LexLe(a[1..], b[1..]))))
  }

  lemma {:induction false} LexLeTotal(a: string, b: string)
    ensures LexLe(a, b) || LexLe(b, a)
    decreases |a|
  {
    if |a| > 0 && |b| > 0 && a[0] == b[0] {
      LexLeTotal(a[1..], b[1..]);
    }
  }

  lemma {:induction false} LexLeTrans(a: string, b: string, c: string)
    requires LexLe(a, b) && LexLe(b, c)
    ensures LexLe(a, c)
    decreases |a|
  {
    if |a| > 0 && a[0] == b[0] && b[0] == c[0] {
      LexLeTrans(a[1..], b[1..], c[1..]);
    }
  }

  /** A text is at most every text it is a prefix of. */
  lemma {:induction false} LexLePrefix(d: string, t: string)
    ensures LexLe(d, d + t)
    decreases |d|
  {
    if |d| > 0 {
      assert (d + t)[1..] == d[1..] + t;
      LexLePrefix(d[1..], t);
    }
  }

  /** A text with something after a prefix `d` is not at most `d`. */
  lemma {:induction false} LexLeNotAfterPrefix(d: string, t: string)
    requires |t| > 0
    ensures !LexLe(d + t, d)
    decreases |d|
  {
    if |d| > 0 {
      assert (d + t)[1..] == d[1..] + t;
      LexLeNotAfterPrefix(d[1..], t);
    }
  }

  /** The list filters; a filter applies only when its text is non-empty. */
  datatype Filters = Filters(role: Option<string>, dateFrom: Option<string>, dateTo: Option<string>)

  /** A row matches the filters: the role (unless `all`), and `createdAt` within the inclusive bounds. */
  predicate Matches(r: Request, filters: Filters)
  {
    && (Truthy(filters.role) && filters.role.value != "all" ==> r.role == filters.role.value)
    && (Truthy(filters.dateFrom) ==> LexLe(filters.dateFrom.value, r.createdAt))
    && (Truthy(filters.dateTo) ==> LexLe(r.createdAt, filters.dateTo.value))
  }

  /** The rows matching the filters, in table order. */
  function Where(rows: seq<Request>, filters: Filters): seq<Request>
  {
    if |rows| == 0 then []
    else (if Matches(rows[0], filters) then [rows[0]] else []) + Where(rows[1..], filters)
  }

  lemma {:induction false} WhereMembers(rows: seq<Request>, filters: Filters, r: Request)
    ensures r in Where(rows, filters) <==> r in rows && Matches(r, filters)
  {
    if |rows| > 0 {
      WhereMembers(rows[1..], filters, r);
      assert rows == [rows[0]] + rows[1..];
    }
  }

  /** One SQL condition of the list query. */
  datatype Condition = RoleIs(role: string) | CreatedFrom(bound: string) | CreatedTo(bound: string)

  predicate Holds(r: Request, c: Condition)
  {
    match c
    case RoleIs(role) => r.role == role
    case CreatedFrom(bound) => LexLe(bound, r.createdAt)
    case CreatedTo(bound) => LexLe(r.createdAt, bound)
  }

  predicate HoldsAll(r: Request, conditions: seq<Condition>)
  {
    forall i :: 0 <= i < |conditions| ==> Holds(r, conditions[i])
  }

  /** `WHERE c1 AND c2 ...`, in table order. */
  function Select(rows: seq<Request>, conditions: seq<Condition>): seq<Request>
  {
    if |rows| == 0 then []
    else (if HoldsAll(rows[0], conditions) then [rows[0]] else []) + Select(rows[1..], conditions)
  }

  lemma {:induction false} SelectWhere(rows: seq<Request>, conditions: seq<Condition>, filters: Filters)
    requires forall r :: HoldsAll(r, conditions) <==> Matches(r, filters)
    ensures Select(rows, conditions) == Where(rows, filters)
  {
    if |rows| > 0 {
      SelectWhere(rows[1..], conditions, filters);
    }
  }

  /** Non-increasing `createdAt`. */
  predicate SortedDesc(s: seq<Request>)
  {
    forall i, j :: 0 <= i < j < |s| ==> LexLe(s[j].createdAt, s[i].createdAt)
  }

  function Insert(x: Request, s: seq<Request>): seq<Request>
  {
    if |s| == 0 || LexLe(s[0].createdAt, x.createdAt) then [x] + s
    else [s[0]] + Insert(x, s[1..])
  }

  /** `ORDER BY created_at DESC`, ties in some order. */
  function SortDesc(s: seq<Request>): seq<Request>
  {
    if |s| == 0 then [] else Insert(s[0], SortDesc(s[1..]))
  }

  lemma {:induction false} InsertPerm(x: Request, s: seq<Request>)
    ensures multiset(Insert(x, s)) == multiset(s) + multiset{x}
  {
    if |s| > 0 && !LexLe(s[0].createdAt, x.createdAt) {
      InsertPerm(x, s[1..]);
      assert s == [s[0]] + s[1..];
    }
  }

  lemma {:induction false} InsertSorted(x: Request, s: seq<Request>)
    requires SortedDesc(s)
    ensures SortedDesc(Insert(x, s))
  {
    if |s| == 0 {
    } else if LexLe(s[0].createdAt, x.createdAt) {
      var r := [x] + s;
      forall i, j | 0 <= i < j < |r|
        ensures LexLe(r[j].createdAt, r[i].createdAt)
      {
        if i == 0 && j > 1 {
          LexLeTrans(s[j - 1].createdAt, s[0].createdAt, x.createdAt);
        }
      }
    } else {
      LexLeTotal(s[0].createdAt, x.createdAt);
      var tail := Insert(x, s[1..]);
      InsertSorted(x, s[1..]);
      InsertPerm(x, s[1..]);
      var r := [s[0]] + tail;
      forall i, j | 0 <= i < j < |r|
        ensures LexLe(r[j].createdAt, r[i].createdAt)
      {
        if i == 0 {
          var y := r[j];
          assert y in multiset(tail);
          if y != x {
            assert y in multiset(s[1..]);
            var k :| 0 <= k < |s[1..]| && s[1..][k] == y;
            assert s[k + 1] == y;
          }
        }
      }
    }
  }

  lemma {:induction false} SortDescCorrect(s: seq<Request>)
    ensures SortedDesc(SortDesc(s))
    ensures multiset(SortDesc(s)) == multiset(s)
  {
    if |s| > 0 {
      SortDescCorrect(s[1..]);
      InsertSorted(s[0], SortDesc(s[1..]));
      InsertPerm(s[0], SortDesc(s[1..]));
      assert s == [s[0]] + s[1..];
    }
  }

  /** Setting status and update time on the rows with that id; every other row and field is kept. */
  function Updated(rows: seq<Request>, id: string, status: string, isoNow: string): (r: seq<Request>)
    ensures |r| == |rows|
  {
    seq(|rows|, i requires 0 <= i < |rows| =>
      if rows[i].id == id then rows[i].(status := status, updatedAt := isoNow) else rows[i])
  }

  // ---------------------------------------------------------------------------
  // The store

  class RequestStore {
    var rows: seq<Request>

    ghost predicate Valid()
      reads this
    {
      UniqueIds(rows) && forall i :: 0 <= i < |rows| ==> Admissible(rows[i])
    }

    constructor()
      ensures rows == [] && Valid()
    {
      rows := [];
    }

    /**
     * `createRequest`: inserts the row for `data` and returns it. The insert
     * fails, leaving the table unchanged, when the type breaks the CHECK
     * constraint or the generated id is already taken.
     */
    method CreateRequest(data: InsertRequest, gen: Generated) returns (result: Result<Request, string>)
      requires Valid()
      modifies this
      ensures Valid()
      ensures result.Success? <==> data.role in Roles && !HasId(old(rows), gen.rowId)
      ensures result.Success? ==> result.value == Inserted(data, gen) && rows == old(rows) + [result.value]
      ensures result.Failure? ==> unchanged(this)
    {
      var request := Inserted(data, gen);
      if !Admissible(request) {
        return Failure("CHECK constraint failed: requests");
      }
      if exists i :: 0 <= i < |rows| && rows[i].id == request.id {
        return Failure("UNIQUE constraint failed: requests.id");
      }
      rows := rows + [request];
      result := Success(request);
    }

    /** `getRequest`: the row with that id, or nothing when none has it. */
    function GetRequest(id: string): (r: Option<Request>)
      reads this
      ensures r.None? <==> !HasId(rows, id)
      ensures r.Some? ==> r.value in rows && r.value.id == id
    {
      FindFirst(rows, IdColumn, id)
    }

    /** `getRequestByTicketId`: the first row with that ticket, or nothing when none has it. */
    function GetRequestByTicketId(ticketId: string): (r: Option<Request>)
      reads this
      ensures r.None? <==> forall i :: 0 <= i < |rows| ==> rows[i].ticketId != ticketId
      ensures r.Some? ==> r.value in rows && r.value.ticketId == ticketId
    {
      FindFirst(rows, TicketColumn, ticketId)
    }

    /** Ids are unique, so a lookup by id finds exactly the row that has it. */
    lemma GetRequestUnique(i: nat)
      requires Valid() && i < |rows|
      ensures GetRequest(rows[i].id) == Some(rows[i])
    {
      var r := FindFirst(rows, IdColumn, rows[i].id);
      var k :| FirstAt(rows, IdColumn, rows[i].id, k) && rows[k] == r.value;
      assert k == i;
    }

    /**
     * `getAllRequests`: exactly the rows matching every supplied filter
     * (as a multiset: each row once), ordered by `createdAt`, newest first.
     */
    method GetAllRequests(filters: Filters) returns (result: seq<Request>)
      ensures SortedDesc(result)
      ensures multiset(result) == multiset(Where(rows, filters))
      ensures forall r :: r in result <==> r in rows && Matches(r, filters)
    {
      var conditions: seq<Condition> := [];
      if Truthy(filters.role) && filters.role.value != "all" {
        conditions := conditions + [RoleIs(filters.role.value)];
      }
      if Truthy(filters.dateFrom) {
        conditions := conditions + [CreatedFrom(filters.dateFrom.value)];
      }
      if Truthy(filters.dateTo) {
        conditions := conditions + [CreatedTo(filters.dateTo.value)];
      }
      assert forall r :: HoldsAll(r, conditions) <==> Matches(r, filters) by {
        forall r: Request
          ensures HoldsAll(r, conditions) <==> Matches(r, filters)
        {
          if Matches(r, filters) {
            assert forall i :: 0 <= i < |conditions| ==> Holds(r, conditions[i]);
          } else {
            if Truthy(filters.role) && filters.role.value != "all" && r.role != filters.role.value {
              assert !Holds(r, conditions[0]);
            } else if Truthy(filters.dateFrom) && !LexLe(filters.dateFrom.value, r.createdAt) {
              assert !Holds(r, conditions[|conditions| - 1 - (if Truthy(filters.dateTo) then 1 else 0)]);
            } else {
              assert !Holds(r, conditions[|conditions| - 1]);
            }
          }
        }
      }
      SelectWhere(rows, conditions, filters);
      var selected: seq<Request>;
      if |conditions| > 0 {
        selected := Select(rows, conditions);
      } else {
        selected := Select(rows, []);
      }
      result := SortDesc(selected);
      SortDescCorrect(selected);
      forall r
        ensures r in result <==> r in rows && Matches(r, filters)
      {
        assert r in result <==> r in multiset(result);
        WhereMembers(rows, filters, r);
      }
    }

    /**
     * `updateRequestStatus`: sets status and update time on the row with that
     * id and nothing else; an unknown id changes nothing. A status outside the
     * CHECK constraint fails on a matching row and leaves the table unchanged.
     */
    method UpdateRequestStatus(id: string, status: string, isoNow: string) returns (result: Result<(), string>)
      requires Valid()
      modifies this
      ensures Valid()
      ensures result.Failure? <==> status !in Statuses && HasId(old(rows), id)
      ensures result.Success? ==> rows == Updated(old(rows), id, status, isoNow)
      ensures result.Failure? ==> unchanged(this)
    {
      if status !in Statuses && exists i :: 0 <= i < |rows| && rows[i].id == id {
        return Failure("CHECK constraint failed: requests");
      }
      rows := Updated(rows, id, status, isoNow);
      result := Success(());
    }
  }

  // ---------------------------------------------------------------------------
  // Properties of the update and of the bounds

  /** An update of an unknown id is a no-op. */
  lemma UpdatedUnknownId(rows: seq<Request>, id: string, status: string, isoNow: string)
    requires !HasId(rows, id)
    ensures Updated(rows, id, status, isoNow) == rows
  {
  }

  /**
   * After an update, the row with that id is found with the new status and
   * time and all other fields unchanged, and a lookup of any other id finds
   * what it found before.
   */
  lemma {:induction false} UpdatedLookup(rows: seq<Request>, id: string, status: string, isoNow: string, other: string)
    requires other != id
    ensures FindFirst(Updated(rows, id, status, isoNow), IdColumn, other) == FindFirst(rows, IdColumn, other)
    ensures FindFirst(rows, IdColumn, id).Some? ==>
      FindFirst(Updated(rows, id, status, isoNow), IdColumn, id) ==
        Some(FindFirst(rows, IdColumn, id).value.(status := status, updatedAt := isoNow))
  {
    if |rows| > 0 {
      UpdatedLookup(rows[1..], id, status, isoNow, other);
      assert Updated(rows, id, status, isoNow)[1..] == Updated(rows[1..], id, status, isoNow);
    }
  }

  /** The lower date bound admits every time on that day: `2024-01-31` <= `2024-01-31 10:00:00`. */
  lemma DateFromAdmitsSameDay(r: Request, day: string, time: string)
    requires r.createdAt == day + time && day != ""
    ensures Matches(r, Filters(None, Some(day), None))
  {
    LexLePrefix(day, time);
  }

  /**
   * The upper date bound compares texts, so a bare date excludes every later
   * time on that day: `2024-01-31 10:00:00` is not <= `2024-01-31`.
   */
  lemma DateToExcludesSameDay(r: Request, day: string, time: string)
    requires r.createdAt == day + time && day != "" && time != ""
    ensures !Matches(r, Filters(None, None, Some(day)))
  {
    LexLeNotAfterPrefix(day, time);
  }
}
