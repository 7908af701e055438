/**
 * The text the printer's buffer primitives write: line breaks followed by
 * indentation, block braces, and lists written with a separator between
 * consecutive items.
 */
module Text {
  /** One level of indentation is four spaces. */
  const IndentUnit: string := "    "

  /** `n` copies of `s` (none when `n` is not positive), built the way a counting loop appends them. */
  function Repeat(s: string, n: int): string
    decreases n
  {
    if n <= 0 then [] else Repeat(s, n - 1) + s
  }

  lemma {:induction false} RepeatLength(s: string, n: int)
    ensures |Repeat(s, n)| == if n <= 0 then 0 else n * |s|
    decreases n
  {
    if n > 0 {
      RepeatLength(s, n - 1);
    }
  }

  /** A repetition of a text made of one character is made of that character. */
  lemma {:induction false} RepeatChars(s: string, n: int, c: char)
    requires forall j :: 0 <= j < |s| ==> s[j] == c
    ensures forall i :: 0 <= i < |Repeat(s, n)| ==> Repeat(s, n)[i] == c
    decreases n
  {
    if n > 0 {
      RepeatChars(s, n - 1, c);
    }
  }

  /** Appending in two steps is appending the two texts together: how a buffer's growth is read as one written text. */
  lemma AppendAssoc(buffer: string, written: string, more: string)
    ensures buffer + written + more == buffer + (written + more)
  {
  }

  lemma AppendAssoc2(buffer: string, written: string, a: string, b: string)
    ensures buffer + written + a + b == buffer + (written + a + b)
  {
  }

  lemma AppendAssoc3(buffer: string, written: string, a: string, b: string, c: string)
    ensures buffer + written + a + b + c == buffer + (written + a + b + c)
  {
  }

  /** The indentation at depth `d`: `d` times four spaces, nothing at depth zero or below. */
  function Indentation(d: int): string {
    Repeat(IndentUnit, d)
  }

  /** What `Newline()` writes at depth `d`. */
  function NL(d: int): string {
    "\n" + Indentation(d)
  }

  /** What `Newline(count)` writes at depth `d`: `count - 1` bare line feeds, then `NL(d)`. */
  function NLs(count: int, d: int): string {
    Repeat("\n", count - 1) + NL(d)
  }

  /** What `BeginBlock()` writes at depth `d`; it leaves the depth at `d + 1`. */
  function Open(d: int): string {
    NL(d) + "{" + NL(d + 1)
  }

  /** What `EndBlock()` writes when it brings the depth back to `d`. */
  function Close(d: int): string {
    NL(d) + "}"
  }

  /**
   * A line break at depth `d` is one line feed followed by exactly `4 * d`
   * spaces (none for a depth that is not positive).
   */
  lemma NewlineShape(d: int)
    ensures |NL(d)| == 1 + (if d <= 0 then 0 else 4 * d)
    ensures NL(d)[0] == '\n'
    ensures forall i :: 1 <= i < |NL(d)| ==> NL(d)[i] == ' '
  {
    RepeatLength(IndentUnit, d);
    RepeatChars(IndentUnit, d, ' ');
  }

  /** `Newline(count)` is `count - 1` line feeds, then a line break at depth `d`. */
  lemma NewlinesShape(count: int, d: int)
    ensures |NLs(count, d)| == (if count <= 1 then 0 else count - 1) + |NL(d)|
    ensures forall i :: 0 <= i < |NLs(count, d)| - |NL(d)| ==> NLs(count, d)[i] == '\n'
    ensures NLs(count, d)[|NLs(count, d)| - |NL(d)|..] == NL(d)
  {
    RepeatLength("\n", count - 1);
    RepeatChars("\n", count - 1, '\n');
  }

  /**
   * `parts` written in order with `sep` between consecutive parts, as the
   * printer's `Intersperse` loop writes them: the first part, then for each
   * further part the separator and the part.
   */
  function Interleave(parts: seq<string>, sep: string): string
    decreases |parts|
  {
    if |parts| == 0 then []
    else if |parts| == 1 then parts[0]
    else Interleave(parts[..|parts| - 1], sep) + sep + parts[|parts| - 1]
  }

  /** The plain concatenation of `parts`, in order. */
  function Concat(parts: seq<string>): string
    decreases |parts|
  {
    if |parts| == 0 then [] else Concat(parts[..|parts| - 1]) + parts[|parts| - 1]
  }

  /** Each part written between `before` and `after`, in order, as a `foreach` loop writes them. */
  function Surround(parts: seq<string>, before: string, after: string): string
    decreases |parts|
  {
    if |parts| == 0 then [] else Surround(parts[..|parts| - 1], before, after) + before + parts[|parts| - 1] + after
  }

  /**
   * Reading an interleaving from the front: the first part, then, if there are
   * more, one separator and the interleaving of the rest. So there is no
   * leading separator, and one separator between each pair of neighbours.
   */
  lemma {:induction false} InterleaveCons(p: string, ps: seq<string>, sep: string)
    ensures Interleave([p] + ps, sep) == p + (if ps == [] then [] else sep + Interleave(ps, sep))
    decreases |ps|
  {
    if |ps| > 1 {
      var all := [p] + ps;
      assert all[..|all| - 1] == [p] + ps[..|ps| - 1];
      InterleaveCons(p, ps[..|ps| - 1], sep);
    } else if |ps| == 1 {
      assert ([p] + ps)[..1] == [p];
    }
  }

  /**
   * An interleaving of `n >= 1` parts is the parts' characters plus exactly
   * `n - 1` separators.
   */
  lemma {:induction false} InterleaveLength(parts: seq<string>, sep: string)
    requires |parts| >= 1
    ensures |Interleave(parts, sep)| == |Concat(parts)| + (|parts| - 1) * |sep|
    decreases |parts|
  {
    if |parts| > 1 {
      var init := parts[..|parts| - 1];
      InterleaveLength(init, sep);
    }
  }

  /** An interleaving of at least one part starts with the first part and ends with the last: no leading or trailing separator. */
  lemma {:induction false} InterleaveEnds(parts: seq<string>, sep: string)
    requires |parts| >= 1
    ensures parts[0] <= Interleave(parts, sep)
    ensures Interleave(parts, sep)[|Interleave(parts, sep)| - |parts[|parts| - 1]|..] == parts[|parts| - 1]
  {
    InterleaveCons(parts[0], parts[1..], sep);
    assert [parts[0]] + parts[1..] == parts;
  }

  /** With an empty separator, interleaving is plain concatenation. */
  lemma {:induction false} InterleaveNoSeparator(parts: seq<string>)
    ensures Interleave(parts, []) == Concat(parts)
    decreases |parts|
  {
    if |parts| > 1 {
      var init := parts[..|parts| - 1];
      InterleaveNoSeparator(init);
    } else if |parts| == 1 {
      assert parts[..0] == [];
    }
  }

  /** Writing each part with nothing around it is plain concatenation. */
  lemma {:induction false} SurroundNothing(parts: seq<string>)
    ensures Surround(parts, [], []) == Concat(parts)
    decreases |parts|
  {
    if |parts| > 0 {
      SurroundNothing(parts[..|parts| - 1]);
    }
  }

  /** A buffer holding an interleaving grows into the interleaving with one more part when a separator and that part are appended. */
  lemma InterleaveGrows(buffer: string, parts: seq<string>, sep: string, next: string)
    requires parts != []
    ensures buffer + Interleave(parts, sep) + sep + next == buffer + Interleave(parts + [next], sep)
  {
    assert (parts + [next])[..|parts|] == parts;
  }

  /** A buffer holding a `Surround` grows into the one with one more part when `before`, the part and `after` are appended. */
  lemma SurroundGrows(buffer: string, parts: seq<string>, before: string, next: string, after: string)
    ensures buffer + Surround(parts, before, after) + before + next + after == buffer + Surround(parts + [next], before, after)
  {
    assert (parts + [next])[..|parts|] == parts;
  }
}
