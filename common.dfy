/** Vocabulary shared by every part of the model: optional values, results,
    UUIDs as Django renders them (`uuid.hex`), instants, a little text
    handling, and the HTTP replies the views send back. */
module Common {

  datatype Option<+T> = None | Some(value: T) {
    function GetOr(default: T): T {
      match this
      case Some(v) => v
      case None => default
    }
  }

  datatype Result<+T, +E> = Ok(value: T) | Err(error: E)

  predicate IsLowerHex(c: char) { '0' <= c <= '9' || 'a' <= c <= 'f' }

  predicate IsUpperHex(c: char) { '0' <= c <= '9' || 'A' <= c <= 'F' }

  /** A UUID as its 32 lower-case hexadecimal digits (`uuid.UUID.hex`). */
  type Uuid = s: seq<char> | |s| == 32 && forall i :: 0 <= i < |s| ==> IsLowerHex(s[i])
    witness "00000000000000000000000000000000"

  /** A point in time, in microseconds (the resolution of a Django DateTimeField). */
  type Instant = int

  const MicrosPerDay: int := 86_400_000_000

  /** `str.upper()` restricted to one hexadecimal digit. */
  function UpperHex(c: char): (u: char)
    requires IsLowerHex(c)
    ensures IsUpperHex(u)
    ensures '0' <= c <= '9' ==> u == c
    ensures 'a' <= c <= 'f' ==> u as int == c as int - 32
  {
    if 'a' <= c <= 'f' then (c as int - 32) as char else c
  }

  /** `str.upper()` on a string of lower-case hexadecimal digits. */
  function UpperHexString(s: seq<char>): (u: seq<char>)
    requires forall i :: 0 <= i < |s| ==> IsLowerHex(s[i])
    ensures |u| == |s|
    ensures forall i :: 0 <= i < |s| ==> u[i] == UpperHex(s[i])
  {
    if s == [] then [] else [UpperHex(s[0])] + UpperHexString(s[1..])
  }

  lemma UpperHexInjective(c: char, d: char)
    requires IsLowerHex(c) && IsLowerHex(d)
    ensures UpperHex(c) == UpperHex(d) <==> c == d
  {
  }

  /** Python's `f"{n}"` for a non-negative integer. */
  function NatToString(n: nat): (s: string)
    ensures |s| >= 1
    ensures forall i :: 0 <= i < |s| ==> '0' <= s[i] <= '9'
  {
    if n < 10 then [Digit(n)] else NatToString(n / 10) + [Digit(n % 10)]
  }

  /** The number a string of decimal digits spells. */
  function DigitsValue(s: string): nat
    requires forall i :: 0 <= i < |s| ==> '0' <= s[i] <= '9'
  {
    if |s| == 0 then 0 else 10 * DigitsValue(s[..|s| - 1]) + (s[|s| - 1] as int - '0' as int)
  }

  /** `NatToString` spells its argument in decimal, as Python's `str` does. */
  lemma {:induction false} NatToStringValue(n: nat)
    ensures DigitsValue(NatToString(n)) == n
    ensures |NatToString(n)| > 1 ==> NatToString(n)[0] != '0'
  {
    if n >= 10 {
      var s := NatToString(n);
      assert s[..|s| - 1] == NatToString(n / 10);
      NatToStringValue(n / 10);
      assert s[0] == NatToString(n / 10)[0];
    }
  }

  function Digit(d: nat): (c: char)
    requires d < 10
    ensures '0' <= c <= '9'
  {
    ('0' as int + d) as char
  }

  predicate OccursAt(s: string, sub: string, i: int) {
    0 <= i <= |s| - |sub| && s[i..i + |sub|] == sub
  }

  /** Python's `sub in s` on strings. */
  ghost predicate Contains(s: string, sub: string) {
    exists i :: OccursAt(s, sub, i)
  }

  lemma ContainsMiddle(a: string, x: string, b: string)
    ensures Contains(a + x + b, x)
  {
    var s := a + x + b;
    assert OccursAt(s, x, |a|);
  }

  /** Appending text keeps an occurrence. */
  lemma ContainsExtend(s: string, sub: string, t: string)
    requires Contains(s, sub)
    ensures Contains(s + t, sub)
  {
    var i :| OccursAt(s, sub, i);
    assert (s + t)[i..i + |sub|] == s[i..i + |sub|];
    assert OccursAt(s + t, sub, i);
  }

  /** Prepending text keeps an occurrence, shifted by the prefix's length. */
  lemma ContainsPrepend(t: string, s: string, sub: string)
    requires Contains(s, sub)
    ensures Contains(t + s, sub)
  {
    var i :| OccursAt(s, sub, i);
    assert (t + s)[|t| + i..|t| + i + |sub|] == s[i..i + |sub|];
    assert OccursAt(t + s, sub, |t| + i);
  }

  /** Why a request was refused. */
  datatype Reason =
    | FieldRequired
    | FieldBlank
    | FieldTooLong
    | FieldTooShort
    | FieldTooLarge
    | InvalidInput
    | InvalidChoice
    | EmailTaken
    | StudentNotFound
    | CourseNotFound
    | AlreadyEnrolled
    | DropWindowExpired
    | OnlyActiveCanBeDropped
    | OnlyAssignedCourses
    | TeacherProfileNotFound
    | StudentsCannotCreate
    | PermissionDenied
    | InvalidOldPassword

  /** The HTTP status a view answers with, and for errors why. */
  datatype Reply =
    | Ok200
    | Created201
    | NoContent204
    | BadRequest400(reason: Reason)
    | NotAuthenticated
    | Forbidden403(reason: Reason)
    | NotFound404
    | MethodNotAllowed405
    | ServerError500
}
