// Argument checks every handler starts with: an exact count, then the
// first empty argument reported by its 1-based position.

module Arguments {
  import opened Ledger

  predicate IsDigit(c: char)
  {
    '0' <= c <= '9'
  }

  function DigitChar(d: nat): (c: char)
    requires d < 10
    ensures IsDigit(c)
  {
    (d + '0' as int) as char
  }

  /** strconv.Itoa on a non-negative number: its decimal digits. */
  function Itoa(n: nat): (s: string)
    ensures |s| > 0
    ensures forall i :: 0 <= i < |s| ==> IsDigit(s[i])
    decreases n
  {
    if n < 10 then [DigitChar(n)] else Itoa(n / 10) + [DigitChar(n % 10)]
  }

  /** The number a string of decimal digits denotes. */
  function Atoi(s: string): nat
    decreases |s|
  {
    if s == [] then 0
    else
      var d := s[|s| - 1] as int - '0' as int;
      Atoi(s[..|s| - 1]) * 10 + (if 0 <= d then d else 0)
  }

  /** Itoa loses nothing: the digits read back as the number. */
  lemma {:induction false} AtoiItoa(n: nat)
    ensures Atoi(Itoa(n)) == n
    decreases n
  {
    if n >= 10 {
      var s := Itoa(n);
      assert s[..|s| - 1] == Itoa(n / 10);
      AtoiItoa(n / 10);
    }
  }

  lemma ItoaInjective(m: nat, n: nat)
    requires Itoa(m) == Itoa(n)
    ensures m == n
  {
    AtoiItoa(m);
    AtoiItoa(n);
  }

  /** The two spellings the source uses in its empty-argument message. */
  const Declare := "declare"
  const Delare := "delare"

  /** "argument " + strconv.Itoa(i+1) + " must be " + spelling, for the
      argument at 0-based index i. */
  function EmptyArgument(i: nat, spelling: string): string
  {
    "argument " + Itoa(i + 1) + " must be " + spelling
  }

  /** The message names exactly one position. */
  lemma EmptyArgumentInjective(i: nat, j: nat, spelling: string)
    requires EmptyArgument(i, spelling) == EmptyArgument(j, spelling)
    ensures i == j
  {
    var m := EmptyArgument(i, spelling);
    var a, b := Itoa(i + 1), Itoa(j + 1);
    var tail := " must be " + spelling;
    assert m == "argument " + (a + tail) == "argument " + (b + tail);
    assert |a| == |b|;
    assert a == m[9..9 + |a|];
    assert b == m[9..9 + |b|];
    ItoaInjective(i + 1, j + 1);
  }

  /** The first index at or after `from` holding an empty argument. */
  function FirstEmpty(args: seq<string>, from: nat): (r: Option<nat>)
    requires from <= |args|
    ensures r.Some? ==> from <= r.value < |args| && args[r.value] == ""
    ensures r.Some? ==> forall j :: from <= j < r.value ==> args[j] != ""
    ensures r.None? <==> forall j :: from <= j < |args| ==> args[j] != ""
    decreases |args| - from
  {
    if from == |args| then None
    else if args[from] == "" then Some(from)
    else FirstEmpty(args, from + 1)
  }

  /** The message a handler's validation fails with, or None when the
      arguments pass: the count first, then the first empty argument. */
  function Validation(args: seq<string>, count: nat, arityMessage: string, spelling: string): (r: Option<string>)
    ensures r.None? <==> |args| == count && forall j :: 0 <= j < |args| ==> args[j] != ""
  {
    if |args| != count then Some(arityMessage)
    else
      match FirstEmpty(args, 0)
      case None => None
      case Some(i) => Some(EmptyArgument(i, spelling))
  }

  /** The source's check: `len(args) != count`, then the loop over args. */
  method CheckArguments(args: seq<string>, count: nat, arityMessage: string, spelling: string) returns (r: Option<string>)
    ensures r == Validation(args, count, arityMessage, spelling)
  {
    if |args| != count {
      return Some(arityMessage);
    }
    var i := 0;
    while i < |args|
      invariant 0 <= i <= |args|
      invariant FirstEmpty(args, i) == FirstEmpty(args, 0)
    {
      if |args[i]| == 0 {
        return Some(EmptyArgument(i, spelling));
      }
      i := i + 1;
    }
    return None;
  }

  /** A wrong count is reported with the count message, whatever the
      arguments hold. */
  lemma ValidationRejectsCount(args: seq<string>, count: nat, arityMessage: string, spelling: string)
    requires |args| != count
    ensures Validation(args, count, arityMessage, spelling) == Some(arityMessage)
  {
  }

  /** With the right count, the first empty argument is the one reported. */
  lemma ValidationReportsFirstEmpty(args: seq<string>, count: nat, arityMessage: string, spelling: string, i: nat)
    requires |args| == count && i < |args| && args[i] == ""
    requires forall j :: 0 <= j < i ==> args[j] != ""
    ensures Validation(args, count, arityMessage, spelling) == Some(EmptyArgument(i, spelling))
  {
  }

  /** Conversely, a reported position is an empty argument with no empty
      argument before it: a later empty argument is never the one named. */
  lemma ValidationNamesOnlyFirstEmpty(args: seq<string>, count: nat, arityMessage: string, spelling: string, i: nat)
    requires |args| == count
    requires Validation(args, count, arityMessage, spelling) == Some(EmptyArgument(i, spelling))
    ensures i < |args| && args[i] == ""
    ensures forall j :: 0 <= j < i ==> args[j] != ""
  {
    var k := FirstEmpty(args, 0);
    assert k.Some?;
    EmptyArgumentInjective(k.value, i, spelling);
  }
}
