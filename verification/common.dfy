/**
 * Shared vocabulary of the model: optional values, the exceptions the Python code raises,
 * the JSON-like values that travel through gates and over the wire, and the few string
 * operations the code relies on (joining, lower-casing, stripping, splitting on a delimiter).
 */
module Common {

  datatype Option<T> = None | Some(value: T) {
    function GetOr(default: T): T {
      match this
      case Some(v) => v
      case None => default
    }
  }

  /** The Python exception classes the core raises or lets through. */
  datatype ErrorKind =
    | ValueError
    | RuntimeError
    | RuntimeWarning
    | KeyError
    | TypeError
    | AttributeError
    | NotImplementedError
    | RecursionError

  /** An exception: its class and its message (`str(e)`). */
  datatype Error = Error(kind: ErrorKind, message: string)

  function ClassName(k: ErrorKind): string {
    match k
    case ValueError => "ValueError"
    case RuntimeError => "RuntimeError"
    case RuntimeWarning => "RuntimeWarning"
    case KeyError => "KeyError"
    case TypeError => "TypeError"
    case AttributeError => "AttributeError"
    case NotImplementedError => "NotImplementedError"
    case RecursionError => "RecursionError"
  }

  /** The KeyError of a missing dictionary key: its message is the quoted key. */
  function KeyErr(k: string): Error {
    Error(KeyError, "'" + k + "'")
  }

  /** The AttributeError of an attribute lookup on an instance of the named class. */
  function NoAttributeOn(typeName: string, attribute: string): Error {
    Error(AttributeError, "'" + typeName + "' object has no attribute '" + attribute + "'")
  }

  /** A value, or the exception raised while computing it. */
  datatype Result<T> = Ok(value: T) | Err(error: Error)

  /** The outcome of an operation that returns `None` in Python. */
  datatype Outcome = Done | Raised(error: Error)

  /**
   * A decoded, JSON-like value: what gate procedures exchange and what the wire carries.
   * `VNone` is Python's `None`; dictionaries are keyed by strings.
   */
  datatype Value =
    | VNone
    | VBool(b: bool)
    | VInt(i: int)
    | VFloat(f: real)
    | VStr(s: string)
    | VList(items: seq<Value>)
    | VDict(entries: map<string, Value>)

  /** The elements of a set listed in some order, as iterating a Python set lists them. */
  method Enumerate<T(==)>(s: set<T>) returns (r: seq<T>)
    ensures |r| == |s|
    ensures forall x :: x in r <==> x in s
  {
    r := [];
    var rest := s;
    while rest != {}
      invariant rest <= s && |r| + |rest| == |s|
      invariant forall x :: x in r <==> x in s && x !in rest
      decreases |rest|
    {
      var x :| x in rest;
      r := r + [x];
      rest := rest - {x};
    }
  }

  // Text helpers
  // ~~~~~~~~~~~~

  /** `sep.join(parts)` */
  function Join(parts: seq<string>, sep: string): (r: string)
    ensures parts == [] ==> r == ""
    ensures |parts| == 1 ==> r == parts[0]
  {
    if parts == [] then ""
    else if |parts| == 1 then parts[0]
    else parts[0] + sep + Join(parts[1..], sep)
  }

  function DigitChar(d: nat): char
    requires d < 10
  {
    "0123456789"[d]
  }

  /** `str(n)` for a natural number. */
  function NatToString(n: nat): (r: string)
    ensures |r| > 0
  {
    if n < 10 then [DigitChar(n)] else NatToString(n / 10) + [DigitChar(n % 10)]
  }

  function LowerChar(c: char): char {
    if 'A' <= c <= 'Z' then (c as int + 32) as char else c
  }

  /** `s.lower()`, for ASCII letters. */
  function Lower(s: string): (r: string)
    ensures |r| == |s|
    ensures forall i :: 0 <= i < |s| ==> r[i] == LowerChar(s[i])
  {
    if s == [] then [] else [LowerChar(s[0])] + Lower(s[1..])
  }

  predicate IsSpace(c: char) {
    c in {' ', '\t', '\n', '\r', '\U{000B}', '\U{000C}'}
  }

  function StripLeft(s: string): (r: string)
    ensures r == [] || !IsSpace(r[0])
    ensures |r| <= |s|
  {
    if s != [] && IsSpace(s[0]) then StripLeft(s[1..]) else s
  }

  function StripRight(s: string): (r: string)
    ensures r == [] || !IsSpace(r[|r| - 1])
    ensures |r| <= |s|
    ensures r != [] ==> r[0] == s[0]
  {
    if s != [] && IsSpace(s[|s| - 1]) then StripRight(s[..|s| - 1]) else s
  }

  /** `rstrip` keeps a prefix of its argument. */
  lemma {:induction false} StripRightPrefix(s: string)
    ensures StripRight(s) == s[..|StripRight(s)|]
    decreases |s|
  {
    if s != [] && IsSpace(s[|s| - 1]) {
      StripRightPrefix(s[..|s| - 1]);
    }
  }

  /** `s.strip()`, for ASCII white space. */
  function Strip(s: string): (r: string)
    ensures r == [] || (!IsSpace(r[0]) && !IsSpace(r[|r| - 1]))
  {
    StripRight(StripLeft(s))
  }

  /** `s.split(delimiter)` for a one-character delimiter: never empty, keeps empty pieces. */
  function Split(s: string, delimiter: char): (r: seq<string>)
    ensures |r| >= 1
    ensures forall i :: 0 <= i < |r| ==> delimiter !in r[i]
  {
    if delimiter !in s then [s]
    else
      var i := IndexOf(s, delimiter);
      [s[..i]] + Split(s[i + 1..], delimiter)
  }

  /** The position of the first occurrence of `c` in `s`. */
  function IndexOf(s: string, c: char): (i: nat)
    requires c in s
    ensures i < |s| && s[i] == c && c !in s[..i]
  {
    if s[0] == c then 0 else 1 + IndexOf(s[1..], c)
  }

  /** Splitting a joined text gives the pieces of each part, in order. */
  lemma {:induction false} SplitJoin(p: string, q: string, delimiter: char)
    requires delimiter !in p
    ensures Split(p + [delimiter] + q, delimiter) == [p] + Split(q, delimiter)
  {
    var s := p + [delimiter] + q;
    assert s[|p|] == delimiter;
    var i := IndexOf(s, delimiter);
    assert forall j :: 0 <= j < |p| ==> s[j] == p[j];
    assert forall k :: 0 <= k < i ==> s[..i][k] == s[k];
    assert i == |p|;
    assert s[..i] == p;
    assert s[i + 1..] == q;
  }
}
