/** Values shared by every part of the generator model: kernel descriptors as
    the header parser hands them over, the generator's error outcomes, and the
    handful of Python string and list operations the generator relies on. */
module Common {

  datatype Option<+T> = None | Some(value: T)

  /** The ways a generation step can fail. Python raises an exception in each
      case; the model returns the failure instead. */
  datatype GenError =
    | UnmappedType(token: string, variant: string)  // KeyError in TYPE_TRANSFORMS[variant][token]
    | IndexOutOfRange(what: string)                 // IndexError on an argument list
    | MissingMember(name: string)                   // KeyError in function_by_name[name]
    | BadDimLen                                     // panic!("bad dimlen")
    | IndexPanic                                    // Rust slice indexing out of bounds

  datatype Result<+T> = Ok(value: T) | Err(error: GenError)

  /** One argument of a native kernel: its name, its native type token
      (such as "THTensor*" or "int") and whether it may be null. */
  datatype Argument = Argument(name: string, typ: string, isOptional: bool)

  /** One native kernel signature, e.g. "Abs_updateOutput" with its ordered
      arguments (the first one is the state handle). */
  datatype FunctionDescriptor = FunctionDescriptor(name: string, arguments: seq<Argument>)

  predicate StartsWith(s: string, p: string) {
    |p| <= |s| && s[..|p|] == p
  }

  predicate EndsWith(s: string, p: string) {
    |p| <= |s| && s[|s| - |p|..] == p
  }

  /** Python's `p in s` for strings. */
  predicate Contains(s: string, p: string)
    decreases |s|
  {
    StartsWith(s, p) || (|s| > 0 && Contains(s[1..], p))
  }

  /** Python's `s[:-1]`: everything but the last character; "" stays "". */
  function DropLast(s: string): (r: string)
    ensures |s| > 0 ==> |r| == |s| - 1 && s == r + [s[|s| - 1]]
    ensures |s| == 0 ==> r == ""
  {
    if |s| == 0 then s else s[..|s| - 1]
  }

  /** Python's `s[n:]` for n >= 0: empty when n is past the end. */
  function Drop<T>(s: seq<T>, n: nat): (r: seq<T>)
    ensures n <= |s| ==> r == s[n..]
    ensures n > |s| ==> r == []
  {
    if n <= |s| then s[n..] else []
  }

  /** Whether a native type token denotes a tensor: Python's `"Tensor" in arg.type`. */
  predicate IsTensor(a: Argument) {
    Contains(a.typ, "Tensor")
  }

  /** Concatenation of a sequence of strings. */
  function Concat(parts: seq<string>): string {
    if parts == [] then "" else Concat(parts[..|parts| - 1]) + parts[|parts| - 1]
  }

  /** Python's `sep.join(parts)`. */
  function Join(parts: seq<string>, sep: string): string {
    if parts == [] then ""
    else if |parts| == 1 then parts[0]
    else Join(parts[..|parts| - 1], sep) + sep + parts[|parts| - 1]
  }

  /** The separator of every emitted argument list. */
  const Sep: string := ", "

  /** Joining two non-empty lists puts one separator between their joins. */
  lemma {:induction false} JoinAppend(a: seq<string>, b: seq<string>, sep: string)
    requires |a| > 0 && |b| > 0
    ensures Join(a + b, sep) == Join(a, sep) + sep + Join(b, sep)
  {
    if |b| == 1 {
      assert (a + b)[..|a + b| - 1] == a;
    } else {
      var b' := b[..|b| - 1];
      JoinAppend(a, b', sep);
      assert (a + b)[..|a + b| - 1] == a + b';
    }
  }

  /** Decimal rendering of a natural number, as Python's `format` writes it. */
  function NatToString(n: nat): (r: string)
    ensures |r| > 0
    decreases n
  {
    var d := ['0', '1', '2', '3', '4', '5', '6', '7', '8', '9'];
    if n < 10 then [d[n]] else NatToString(n / 10) + [d[n % 10]]
  }

  /** `d.get(token, token)` on a string table: the mapped value, or the token itself. */
  function Get(transforms: map<string, string>, token: string): (r: string)
    ensures token in transforms ==> r == transforms[token]
    ensures token !in transforms ==> r == token
  {
    if token in transforms then transforms[token] else token
  }
}
