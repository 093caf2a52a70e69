/**
  Java-level vocabulary shared by the whole model: nullable references,
  the two string tests the client and the command line use (`trim()` and
  `isEmpty()`), and the exceptions the code raises.
 */
module JavaText {

  /** A Java reference that may be null. */
  datatype Option<+T> = None | Some(value: T) {
    function GetOr(default: T): T {
      match this
      case Some(v) => v
      case None => default
    }
  }

  /** The exceptions the modelled code raises, with the data they carry. */
  datatype Exception =
    | IllegalState(message: string)
    | IllegalArgument(message: string)
      /** `UnsuccessfulResponseException(code, message)` */
    | UnsuccessfulResponse(code: int, message: string)
      /** an `IOException` raised by the transport */
    | IoFailure(cause: string)
      /** the command-line parser's rejection of a command word that is not registered */
    | UnknownCommand(word: string)

  /** A value, or the exception thrown instead. */
  datatype Result<+T> = Ok(value: T) | Err(error: Exception)

  /** `String.trim()` removes every leading and trailing character whose code is at most U+0020. */
  predicate IsTrimmed(c: char) {
    c <= ' '
  }

  /** Reference notion of a blank string: every character is one `trim()` removes. */
  ghost predicate Blank(s: string) {
    forall k :: 0 <= k < |s| ==> IsTrimmed(s[k])
  }

  /** `s` without its leading trimmed characters. */
  function TrimStart(s: string): string {
    if |s| > 0 && IsTrimmed(s[0]) then TrimStart(s[1..]) else s
  }

  /** `s` without its trailing trimmed characters. */
  function TrimEnd(s: string): string {
    if |s| > 0 && IsTrimmed(s[|s| - 1]) then TrimEnd(s[..|s| - 1]) else s
  }

  /** `TrimStart` drops a prefix of trimmed characters and stops at the first other one. */
  lemma {:induction false} TrimStartSpec(s: string)
    ensures var t := TrimStart(s);
      && |t| <= |s| && t == s[|s| - |t|..]
      && (forall k :: 0 <= k < |s| - |t| ==> IsTrimmed(s[k]))
      && (|t| > 0 ==> !IsTrimmed(t[0]))
  {
    if |s| > 0 && IsTrimmed(s[0]) {
      TrimStartSpec(s[1..]);
    }
  }

  /** `TrimEnd` drops a suffix of trimmed characters and stops at the last other one. */
  lemma {:induction false} TrimEndSpec(s: string)
    ensures var t := TrimEnd(s);
      && |t| <= |s| && t == s[..|t|]
      && (forall k :: |t| <= k < |s| ==> IsTrimmed(s[k]))
      && (|t| > 0 ==> !IsTrimmed(t[|t| - 1]))
  {
    if |s| > 0 && IsTrimmed(s[|s| - 1]) {
      TrimEndSpec(s[..|s| - 1]);
    }
  }

  /** `String.trim()`: the longest infix of `s` that neither starts nor ends with a trimmed character. */
  function Trim(s: string): (t: string)
    ensures |t| > 0 ==> !IsTrimmed(t[0]) && !IsTrimmed(t[|t| - 1])
    ensures |t| == 0 <==> Blank(s)
  {
    TrimStartSpec(s);
    TrimEndSpec(TrimStart(s));
    TrimEnd(TrimStart(s))
  }

  /**
    `trim()` removes only characters at or below U+0020, and only at the two
    ends: its result is the infix of `s` that starts after the leading ones.
   */
  lemma {:induction false} TrimIsInfix(s: string)
    ensures var t := Trim(s); var i := |s| - |TrimStart(s)|;
      && 0 <= i && i + |t| <= |s| && t == s[i..i + |t|]
      && (forall k :: 0 <= k < i ==> IsTrimmed(s[k]))
      && (forall k :: i + |t| <= k < |s| ==> IsTrimmed(s[k]))
  {
    TrimStartSpec(s);
    var u := TrimStart(s);
    TrimEndSpec(u);
    var i := |s| - |u|;
    var t := TrimEnd(u);
    assert t == u[..|t|] && u == s[i..];
    forall k | i + |t| <= k < |s|
      ensures IsTrimmed(s[k])
    {
      assert s[k] == u[k - i];
    }
  }

  /** `s == null || s.isEmpty()`, the emptiness test of the command line (no trimming). */
  predicate NullOrEmpty(s: Option<string>) {
    s.None? || |s.value| == 0
  }

  /** `s == null || s.trim().isEmpty()`, the emptiness test of credential resolution. */
  predicate NullOrBlank(s: Option<string>) {
    s.None? || Trim(s.value) == ""
  }

  /** A whitespace-only string is empty for `trim()` but not for `isEmpty()`. */
  lemma {:induction false} BlankIsNotEmpty()
    ensures NullOrBlank(Some(" ")) && !NullOrEmpty(Some(" "))
  {
    assert Blank(" ");
  }

  /** A string that neither starts nor ends with a trimmed character is its own trim. */
  lemma TrimKeeps(s: string)
    requires |s| > 0 && !IsTrimmed(s[0]) && !IsTrimmed(s[|s| - 1])
    ensures Trim(s) == s && !NullOrBlank(Some(s))
  {
    assert TrimStart(s) == s;
    assert TrimEnd(s) == s;
  }

  /** Trimming is idempotent. */
  lemma {:induction false} TrimIdempotent(s: string)
    ensures Trim(Trim(s)) == Trim(s)
  {
    var t := Trim(s);
    if |t| > 0 {
      assert TrimStart(t) == t;
      assert TrimEnd(t) == t;
    } else {
      assert TrimStart(t) == t;
    }
  }

  /** The argument of `equals(Object o)`: null, an instance of the same class, or an object of another class. */
  datatype Obj<T> = NullRef | Instance(v: T) | OtherClass

  /** `a != null ? a.equals(b) : b == null`, for field types whose `equals` is value equality. */
  predicate NullSafeEquals<T(==)>(a: Option<T>, b: Option<T>) {
    if a.Some? then b.Some? && a.value == b.value else b.None?
  }

  const TWO_TO_31: int := 0x8000_0000
  const TWO_TO_32: int := 0x1_0000_0000

  predicate IsInt32(x: int) {
    -TWO_TO_31 <= x < TWO_TO_31
  }

  /** Java `int` arithmetic: the value modulo 2^32, read back as a signed 32-bit integer. */
  function Wrap32(x: int): (r: int)
    ensures IsInt32(r)
    ensures (r - x) % TWO_TO_32 == 0
    ensures IsInt32(x) ==> r == x
  {
    (x + TWO_TO_31) % TWO_TO_32 - TWO_TO_31
  }

  /**
    The `hashCode` combination of the value classes: `result` starts at the
    first field's hash and each further field computes `31 * result + hash`
    in `int` arithmetic. Starting from 0 gives the same value.
   */
  function HashFold(hs: seq<int>): (r: int)
    ensures IsInt32(r)
  {
    if hs == [] then 0 else Wrap32(31 * HashFold(hs[..|hs| - 1]) + hs[|hs| - 1])
  }
}
