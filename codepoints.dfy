/** Code units of the tmux control-mode client and the fold every
    character-at-a-time lexer of the client is an instance of. */
module Codepoints {

  /** One element of a `QVector<uint>` buffer: an unsigned 32-bit value. */
  type Codepoint = x: int | 0 <= x < 0x1_0000_0000

  /** Arithmetic on `uint` wraps around modulo this value. */
  const UINT_MODULUS: int := 0x1_0000_0000

  const SPACE: Codepoint := 0x20
  const DOLLAR: Codepoint := 0x24
  const PERCENT: Codepoint := 0x25
  const STAR: Codepoint := 0x2A
  const COMMA: Codepoint := 0x2C
  const ZERO: Codepoint := 0x30
  const ONE: Codepoint := 0x31
  const NINE: Codepoint := 0x39
  const COLON: Codepoint := 0x3A
  const AT: Codepoint := 0x40
  const BACKSLASH: Codepoint := 0x5C

  /** A token: no space inside it. */
  predicate NoSpace(s: seq<Codepoint>) {
    forall i :: 0 <= i < |s| ==> s[i] != SPACE
  }

  lemma NoSpaceTail(t: seq<Codepoint>)
    requires NoSpace(t) && t != []
    ensures t[0] != SPACE && NoSpace(t[1..])
  {
    forall i | 0 <= i < |t[1..]| ensures t[1..][i] != SPACE {
      assert t[1..][i] == t[i + 1];
    }
  }

  /** The number of spaces in a line. */
  function SpaceCount(line: seq<Codepoint>): nat
    decreases |line|
  {
    if line == [] then 0 else (if line[0] == SPACE then 1 else 0) + SpaceCount(line[1..])
  }

  function Min(a: int, b: int): int {
    if a <= b then a else b
  }

  /** A text literal of the source as code units (`QString` read through `toUcs4`). */
  function Str(s: string): (r: seq<Codepoint>)
    ensures |r| == |s|
    ensures forall i :: 0 <= i < |s| ==> r[i] == s[i] as int
  {
    seq(|s|, i requires 0 <= i < |s| => s[i] as int)
  }

  /** Feeds `line` one code unit at a time, left to right, into `step`,
      starting from `st`: what a sequence of `push_char` calls does. */
  function Scan<S>(step: (S, Codepoint) -> S, st: S, line: seq<Codepoint>): S
    decreases |line|
  {
    if line == [] then st else Scan(step, step(st, line[0]), line[1..])
  }

  /** Feeding two pieces one after the other is feeding their concatenation. */
  lemma {:induction false} ScanAppend<S>(step: (S, Codepoint) -> S, st: S, a: seq<Codepoint>, b: seq<Codepoint>)
    ensures Scan(step, st, a + b) == Scan(step, Scan(step, st, a), b)
    decreases |a|
  {
    if a == [] {
      assert a + b == b;
    } else {
      assert (a + b)[0] == a[0];
      assert (a + b)[1..] == a[1..] + b;
      ScanAppend(step, step(st, a[0]), a[1..], b);
    }
  }

  /** The last code unit of a line is the last step taken. */
  lemma ScanSnoc<S>(step: (S, Codepoint) -> S, st: S, a: seq<Codepoint>, c: Codepoint)
    ensures Scan(step, st, a + [c]) == step(Scan(step, st, a), c)
  {
    ScanAppend(step, st, a, [c]);
    assert [c][1..] == [];
  }
}
