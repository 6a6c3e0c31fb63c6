/** The NUL-terminated value lists that `git config --null --get-all` prints.
    One `char` stands for one byte; whether a byte string is UTF-8 is a parameter. */
module ConfigOutput {
  import opened Text
  import opened Wrappers

  datatype OutputError = Malformed | CommandFailed

  ghost predicate Printable(values: seq<string>, utf8: string -> bool) {
    forall i :: 0 <= i < |values| ==> NulFree(values[i]) && utf8(values[i])
  }

  /** What Git prints for an ordered list of values. */
  function Encode(values: seq<string>): string {
    if values == [] then "" else values[0] + [NUL] + Encode(values[1..])
  }

  function ParseConfigValues(bytes: string, utf8: string -> bool): Result<seq<string>, OutputError> {
    if bytes == "" then Ok([])
    else if bytes[|bytes| - 1] != NUL then Err(Malformed)
    else
      var parts := Split(bytes[..|bytes| - 1], NUL);
      if forall i :: 0 <= i < |parts| ==> utf8(parts[i]) then Ok(parts) else Err(Malformed)
  }

  lemma {:induction false} SplitThenEncode(bytes: string)
    ensures Encode(Split(bytes, NUL)) == bytes + [NUL]
    ensures forall i :: 0 <= i < |Split(bytes, NUL)| ==> NulFree(Split(bytes, NUL)[i])
  {
    if bytes != "" {
      SplitThenEncode(bytes[1..]);
      var rest := Split(bytes[1..], NUL);
      if bytes[0] == NUL {
        assert ([""] + rest)[1..] == rest;
      } else {
        var parts := [[bytes[0]] + rest[0]] + rest[1..];
        assert parts[1..] == rest[1..];
        assert Encode(parts) == [bytes[0]] + (rest[0] + [NUL] + Encode(rest[1..]));
      }
      assert bytes == [bytes[0]] + bytes[1..];
    } else {
      assert Encode([""]) == "" + [NUL] + Encode([]);
    }
  }

  lemma {:induction false} EncodeThenSplit(values: seq<string>)
    requires values != []
    requires forall i :: 0 <= i < |values| ==> NulFree(values[i])
    ensures Encode(values) != "" && Encode(values)[|Encode(values)| - 1] == NUL
    ensures Split(Encode(values)[..|Encode(values)| - 1], NUL) == values
  {
    var printed := Encode(values);
    if |values| == 1 {
      assert values[1..] == [];
      assert printed == values[0] + [NUL];
      assert printed[..|printed| - 1] == values[0];
      SplitPrefix(values[0], "", NUL);
    } else {
      EncodeThenSplit(values[1..]);
      var rest := Encode(values[1..]);
      assert printed[..|printed| - 1] == values[0] + [NUL] + rest[..|rest| - 1];
      SplitPrefix(values[0], rest[..|rest| - 1], NUL);
    }
  }

  /** The parser and the printer are inverse to each other in both directions: a byte string is
      accepted with a given list exactly when it is that list, printed. */
  lemma ParseInvertsEncode(bytes: string, values: seq<string>, utf8: string -> bool)
    ensures ParseConfigValues(bytes, utf8) == Ok(values)
            <==> Printable(values, utf8) && bytes == Encode(values)
  {
    if bytes != "" && bytes[|bytes| - 1] == NUL {
      SplitThenEncode(bytes[..|bytes| - 1]);
      assert bytes[..|bytes| - 1] + [NUL] == bytes;
    }
    if Printable(values, utf8) && values != [] {
      EncodeThenSplit(values);
    }
  }

  lemma UnterminatedIsRejected(bytes: string, utf8: string -> bool)
    requires bytes != "" && bytes[|bytes| - 1] != NUL
    ensures ParseConfigValues(bytes, utf8) == Err(Malformed)
    ensures forall values: seq<string> :: Printable(values, utf8) ==> bytes != Encode(values)
  {
    forall values: seq<string> | Printable(values, utf8) && values != []
      ensures bytes != Encode(values)
    {
      EncodeThenSplit(values);
    }
  }

  /** `read_values`: a failed command counts as "no values" only for exit code 1 with no output. */
  function ReadOutcome(code: int, stdout: string, utf8: string -> bool): Result<seq<string>, OutputError> {
    if code != 0 then
      if code == 1 && stdout == "" then Ok([]) else Err(CommandFailed)
    else ParseConfigValues(stdout, utf8)
  }

  /** A lookup yields a list exactly when the command succeeded and printed that list, or says with exit code
      1 and no output that there is none; every other failure is an error. */
  lemma ReadOutcomeIff(code: int, stdout: string, values: seq<string>, utf8: string -> bool)
    ensures ReadOutcome(code, stdout, utf8) == Ok(values) <==>
            || (code == 0 && Printable(values, utf8) && stdout == Encode(values))
            || (code == 1 && stdout == "" && values == [])
  {
    ParseInvertsEncode(stdout, values, utf8);
  }

  /** Git answers a lookup with exit code 1 when the key is absent and with the printed values
      otherwise; the host then reads back exactly the stored list. */
  lemma LookupIsFaithful(stored: seq<string>, utf8: string -> bool)
    requires Printable(stored, utf8)
    ensures ReadOutcome(if stored == [] then 1 else 0, Encode(stored), utf8) == Ok(stored)
  {
    ParseInvertsEncode(Encode(stored), stored, utf8);
  }
}
