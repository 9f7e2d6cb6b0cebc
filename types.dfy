/** Vocabulary shared by every part of the dispatch backend: identifiers,
    the closed enumerations of the schemas, JavaScript number truthiness,
    the HTTP error envelope and the two string normalisations the schemas use. */
module Types {

  /** Every document id (user, task) and socket id is an opaque string. */
  type Id = string

  datatype Option<T> = None | Some(value: T)

  /** The error half of the `{success: false, message}` envelope. */
  datatype HttpError = HttpError(code: nat, message: string)

  datatype Result<T> = Ok(value: T) | Err(error: HttpError)

  /** The authenticated caller, `req.user` / `socket.user`. */
  datatype Actor = Actor(id: Id, role: Role)

  // ---------------------------------------------------------------
  // Roles

  datatype Role = Admin | Dispatcher | Courier

  function RoleName(r: Role): string
  {
    match r
    case Admin => "admin"
    case Dispatcher => "dispatcher"
    case Courier => "courier"
  }

  /** Mongoose's enum validator for `role`: exactly the three names. */
  function ParseRole(s: string): (r: Option<Role>)
    ensures forall x :: r == Some(x) <==> RoleName(x) == s
  {
    if s == "admin" then Some(Admin)
    else if s == "dispatcher" then Some(Dispatcher)
    else if s == "courier" then Some(Courier)
    else None
  }

  // ---------------------------------------------------------------
  // Courier availability

  datatype Availability = Available | Busy | Offline

  function AvailabilityName(a: Availability): string
  {
    match a
    case Available => "available"
    case Busy => "busy"
    case Offline => "offline"
  }

  function ParseAvailability(s: string): (r: Option<Availability>)
    ensures forall x :: r == Some(x) <==> AvailabilityName(x) == s
  {
    if s == "available" then Some(Available)
    else if s == "busy" then Some(Busy)
    else if s == "offline" then Some(Offline)
    else None
  }

  // ---------------------------------------------------------------
  // Task status and priority

  datatype Status = Created | InProgress | Completed | Cancelled

  function StatusName(s: Status): string
  {
    match s
    case Created => "CREATED"
    case InProgress => "IN_PROGRESS"
    case Completed => "COMPLETED"
    case Cancelled => "CANCELLED"
  }

  function ParseStatus(s: string): (r: Option<Status>)
    ensures forall x :: r == Some(x) <==> StatusName(x) == s
  {
    if s == "CREATED" then Some(Created)
    else if s == "IN_PROGRESS" then Some(InProgress)
    else if s == "COMPLETED" then Some(Completed)
    else if s == "CANCELLED" then Some(Cancelled)
    else None
  }

  datatype Priority = Low | Medium | High | Urgent

  function PriorityName(p: Priority): string
  {
    match p
    case Low => "low"
    case Medium => "medium"
    case High => "high"
    case Urgent => "urgent"
  }

  function ParsePriority(s: string): (r: Option<Priority>)
    ensures forall x :: r == Some(x) <==> PriorityName(x) == s
  {
    if s == "low" then Some(Low)
    else if s == "medium" then Some(Medium)
    else if s == "high" then Some(High)
    else if s == "urgent" then Some(Urgent)
    else None
  }

  // ---------------------------------------------------------------
  // JavaScript numbers as the handlers receive them

  /** A number field of a request body or event payload: absent
      (`undefined`/`null`) or a value. Values are passed through, never
      computed with, so they are kept as reals. */
  datatype JsNumber = Missing | Number(value: real)
  {
    /** JavaScript truthiness: `undefined`, `null` and `0` are falsy
        (NaN is not modelled). */
    predicate Truthy()
    {
      Number? && value != 0.0
    }
  }

  // ---------------------------------------------------------------
  // String normalisation used by the `trim` and `lowercase` schema options

  /** White space removed by `String.prototype.trim` and matched by the
      regular-expression class `\s`, restricted to the ASCII controls,
      the space, NO-BREAK SPACE and the byte-order mark. */
  predicate IsSpace(c: char)
  {
    c == ' ' || c == '\t' || c == '\n' || c == '\r' || c == '\U{000B}' || c == '\U{000C}'
    || c == '\U{00A0}' || c == '\U{FEFF}'
  }

  /** The end of the run of white space that starts at `i`. */
  function SkipSpace(s: string, i: nat): (n: nat)
    requires i <= |s|
    ensures i <= n <= |s|
    ensures forall k :: i <= k < n ==> IsSpace(s[k])
    ensures n == |s| || !IsSpace(s[n])
    decreases |s| - i
  {
    if i < |s| && IsSpace(s[i]) then SkipSpace(s, i + 1) else i
  }

  /** The start of the run of white space that ends at `j`, not going
      below `lo`. */
  function SkipSpaceBack(s: string, lo: nat, j: nat): (n: nat)
    requires lo <= j <= |s|
    ensures lo <= n <= j
    ensures forall k :: n <= k < j ==> IsSpace(s[k])
    ensures n == lo || !IsSpace(s[n - 1])
    decreases j
  {
    if lo < j && IsSpace(s[j - 1]) then SkipSpaceBack(s, lo, j - 1) else j
  }

  /** `r` is `s` with white space only removed from its two ends, the
      first `i` characters being dropped at the front. */
  predicate StrippedAt(s: string, r: string, i: int)
  {
    0 <= i <= |s| - |r|
    && (forall k :: 0 <= k < |r| ==> r[k] == s[i + k])
    && (forall k :: 0 <= k < i ==> IsSpace(s[k]))
    && (forall k :: i + |r| <= k < |s| ==> IsSpace(s[k]))
  }

  /** `trim: true`: the infix with no white space at either end,
      obtained by dropping white space only. */
  function Trim(s: string): (r: string)
    ensures r == [] || (!IsSpace(r[0]) && !IsSpace(r[|r| - 1]))
    ensures StrippedAt(s, r, SkipSpace(s, 0))
  {
    var i := SkipSpace(s, 0);
    var j := SkipSpaceBack(s, i, |s|);
    s[i..j]
  }

  function LowerChar(c: char): (r: char)
    ensures !('A' <= r <= 'Z')
    ensures !('A' <= c <= 'Z') ==> r == c
    ensures 'A' <= c <= 'Z' ==> 'a' <= r <= 'z' && r as int - 'a' as int == c as int - 'A' as int
  {
    if 'A' <= c <= 'Z' then (c as int + 32) as char else c
  }

  /** `lowercase: true`, for the ASCII letters (String.toLowerCase also
      folds other scripts; that is not modelled). */
  function Lower(s: string): (r: string)
    ensures |r| == |s|
    ensures forall k :: 0 <= k < |s| ==> r[k] == LowerChar(s[k])
    ensures forall k :: 0 <= k < |r| ==> !('A' <= r[k] <= 'Z')
  {
    seq(|s|, k requires 0 <= k < |s| => LowerChar(s[k]))
  }

  /** A string without white space at either end is its own trimming. */
  lemma {:induction false} TrimKeepsTrimmed(s: string)
    requires s == [] || (!IsSpace(s[0]) && !IsSpace(s[|s| - 1]))
    ensures Trim(s) == s
  {
    if s != [] {
      assert SkipSpace(s, 0) == 0;
      assert SkipSpaceBack(s, 0, |s|) == |s|;
      assert s[0..|s|] == s;
    }
  }

  /** A string with no upper-case ASCII letter is its own lowering. */
  lemma {:induction false} LowerKeepsLowerCase(s: string)
    requires forall k :: 0 <= k < |s| ==> !('A' <= s[k] <= 'Z')
    ensures Lower(s) == s
  {
    assert forall k :: 0 <= k < |s| ==> Lower(s)[k] == s[k];
  }

  // ---------------------------------------------------------------
  // JavaScript string length

  /** `String.prototype.length`: the number of UTF-16 code units, so a
      character outside the Basic Multilingual Plane counts twice. */
  function Utf16Length(s: string): (n: nat)
    ensures |s| <= n <= 2 * |s|
    ensures n == |s| <==> forall k :: 0 <= k < |s| ==> s[k] as int < 0x1_0000
  {
    if s == [] then 0
    else (if s[0] as int < 0x1_0000 then 1 else 2) + Utf16Length(s[1..])
  }
}
