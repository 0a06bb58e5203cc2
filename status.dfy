/** The JSend status tag of a response and its wire string (Status.java). */
module Statuses {
  import opened Wrappers

  /** The closed enum: a response is a success, a fail or an error, nothing else. */
  datatype Status = Success | Fail | Error

  /** Every value of the enum. */
  const AllStatuses: set<Status> := {Success, Fail, Error}

  /** There is no fourth status. */
  lemma StatusIsClosed(s: Status)
    ensures s in AllStatuses
    ensures |AllStatuses| == 3
  {
  }

  /** The string stored in each enum constant and returned by `toString`. */
  function ToString(s: Status): (w: string)
    ensures |w| > 0 && IsLowercase(w)
  {
    match s
    case Success => "success"
    case Fail => "fail"
    case Error => "error"
  }

  /** Reads a wire string back as a status; `None` for any other string. */
  function FromWire(w: string): (r: Option<Status>)
    ensures r.Some? ==> ToString(r.value) == w
    ensures r.None? ==> forall s: Status :: ToString(s) != w
  {
    if w == "success" then Some(Success)
    else if w == "fail" then Some(Fail)
    else if w == "error" then Some(Error)
    else None
  }

  /** The wire string determines the status: decoding it gives the status back. */
  lemma WireStringDeterminesStatus(a: Status, b: Status)
    ensures FromWire(ToString(a)) == Some(a)
    ensures ToString(a) == ToString(b) ==> a == b
  {
  }

  // ----- Lower-casing, as String.toLowerCase does it on ASCII letters -----

  predicate IsUpper(c: char) {
    'A' <= c <= 'Z'
  }

  function LowerChar(c: char): (d: char)
    ensures !IsUpper(d)
    ensures !IsUpper(c) ==> d == c
    ensures IsUpper(c) ==> d as int == c as int - 'A' as int + 'a' as int
  {
    if IsUpper(c) then (c as int - 'A' as int + 'a' as int) as char else c
  }

  /** No character of `s` is an upper-case letter. */
  predicate IsLowercase(s: string) {
    forall i :: 0 <= i < |s| ==> !IsUpper(s[i])
  }

  /** Lower-cases every letter of `s`, leaving every other character alone. */
  function ToLower(s: string): (r: string)
    ensures |r| == |s|
    ensures forall i :: 0 <= i < |s| ==> r[i] == LowerChar(s[i])
    ensures IsLowercase(r)
  {
    if s == [] then [] else [LowerChar(s[0])] + ToLower(s[1..])
  }

  /** Lower-casing a string that has no upper-case letter changes nothing. */
  lemma LowercaseIsFixed(s: string)
    requires IsLowercase(s)
    ensures ToLower(s) == s
  {
  }

  /** Every wire string is already lower case, so `toLowerCase()` on it is `toString()`. */
  lemma WireStringIsLowercase(s: Status)
    ensures ToLower(ToString(s)) == ToString(s)
  {
    LowercaseIsFixed(ToString(s));
  }
}
