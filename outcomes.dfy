/** Failure-compatible wrappers and the exception classes the lineage code raises.
    A Python `raise` becomes an `Err` carrying one of the `Error` constructors below. */
module Outcomes {

  datatype Option<+T> = None | Some(value: T)

  /** The exception classes that cross the boundaries of the modelled code. */
  datatype Error =
    | AirflowError(message: string)
    | ValueError(message: string)
    | KeyError(message: string)
    | TypeError(message: string)
    | ZeroDivisionError
    | HttpStatusError(status: int)
    | LineageOperationError(message: string)
    | OtherError(message: string)

  /** `str(e)`: the message an exception was raised with; a `KeyError` shows the `repr`
      of its key. */
  function Message(e: Error): string
  {
    match e
    case ZeroDivisionError => "integer modulo by zero"
    case HttpStatusError(_) => "HTTP status error"
    case KeyError(key) => Repr(key)
    case _ => e.message
  }

  /** A lower-case hexadecimal digit. */
  function HexLow(n: int): (c: char)
    requires 0 <= n < 16
    ensures HexLowValue(c) == n
  {
    if n < 10 then ('0' as int + n) as char else ('a' as int + n - 10) as char
  }

  /** The value of a lower-case hexadecimal digit; 0 for any other character. */
  function HexLowValue(c: char): (n: int)
    ensures 0 <= n < 16
  {
    if '0' <= c <= '9' then c as int - '0' as int
    else if 'a' <= c <= 'f' then c as int - 'a' as int + 10
    else 0
  }

  /** Python's `repr` of a string: single quotes unless the text holds a single quote
      and no double quote; the backslash, the chosen quote, tab, newline and carriage
      return are escaped, and the other ASCII control characters are written `\xhh`. */
  function Repr(s: string): string
  {
    var q := if '\'' in s && '"' !in s then '"' else '\'';
    [q] + ReprBody(s, q) + [q]
  }

  function ReprChar(c: char, q: char): string
  {
    if c == '\\' then "\\\\"
    else if c == q then ['\\', q]
    else if c == '\t' then "\\t"
    else if c == '\n' then "\\n"
    else if c == '\r' then "\\r"
    else if c < ' ' || c == '\U{007F}' then "\\x" + [HexLow(c as int / 16), HexLow(c as int % 16)]
    else [c]
  }

  function ReprBody(s: string, q: char): string
    decreases |s|
  {
    if s == [] then [] else ReprChar(s[0], q) + ReprBody(s[1..], q)
  }

  /** Printable ASCII other than the single quote and the backslash. */
  predicate PlainChar(c: char)
  {
    ' ' <= c <= '~' && c != '\\' && c != '\''
  }

  /** A key made of plain characters, such as a parameter or column name, is shown
      between single quotes and otherwise unchanged. */
  lemma {:induction false} ReprPlain(s: string)
    requires forall k :: 0 <= k < |s| ==> PlainChar(s[k])
    ensures Repr(s) == "'" + s + "'"
  {
    ReprBodyPlain(s, '\'');
  }

  lemma {:induction false} ReprBodyPlain(s: string, q: char)
    requires q == '\'' && forall k :: 0 <= k < |s| ==> PlainChar(s[k])
    ensures ReprBody(s, q) == s
    decreases |s|
  {
    if s != [] {
      ReprBodyPlain(s[1..], q);
      assert s == [s[0]] + s[1..];
    }
  }

  datatype Result<+T> = Ok(value: T) | Err(error: Error) {
    predicate IsFailure() { Err? }

    function PropagateFailure<U>(): Result<U>
      requires Err?
    {
      Err(error)
    }

    function Extract(): T
      requires Ok?
    {
      value
    }
  }
}
