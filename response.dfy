/**
 * The HTTP response the exporter writes its lines to. The body is a stream of
 * characters; the ghost list `writes` records what each write call appended.
 * Writes never fail here (the exporter ignores their errors anyway).
 */
module Response {
  /** The parts written one after the other. */
  function Concat(parts: seq<string>): string
  {
    if parts == [] then "" else Concat(parts[..|parts| - 1]) + parts[|parts| - 1]
  }

  lemma {:induction false} ConcatAppend(a: seq<string>, b: seq<string>)
    ensures Concat(a + b) == Concat(a) + Concat(b)
  {
    if b == [] {
      assert a + b == a;
    } else {
      assert (a + b)[..|a + b| - 1] == a + b[..|b| - 1];
      ConcatAppend(a, b[..|b| - 1]);
    }
  }

  /** The number of bytes a character takes in UTF-8. */
  function Utf8Width(c: char): nat {
    if c as int < 0x80 then 1
    else if c as int < 0x800 then 2
    else if c as int < 0x1_0000 then 3
    else 4
  }

  /** The number of bytes s takes in UTF-8, which is what a write reports. */
  function Utf8Length(s: string): (n: nat)
    ensures |s| <= n <= 4 * |s|
  {
    if s == [] then 0 else Utf8Length(s[..|s| - 1]) + Utf8Width(s[|s| - 1])
  }

  class Sink {
    var body: string
    ghost var writes: seq<string>

    ghost predicate Valid()
      reads this
    {
      body == Concat(writes)
    }

    constructor ()
      ensures Valid() && writes == [] && body == ""
    {
      body := "";
      writes := [];
    }

    /** io.WriteString: appends s and reports how many bytes it wrote. */
    method WriteString(s: string) returns (n: nat)
      requires Valid()
      modifies this
      ensures Valid()
      ensures writes == old(writes) + [s] && body == old(body) + s
      ensures n == Utf8Length(s)
    {
      body := body + s;
      writes := writes + [s];
      assert writes[..|writes| - 1] == old(writes);
      n := Utf8Length(s);
    }
  }
}
