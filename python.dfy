/** The few pieces of Python's built-in behaviour that the models below depend on:
    `None`, uncaught exceptions, the free-form metadata mapping, `x or {}`, the slice
    `s[-k:]`, `str.lower`, the `in` test on strings, `str.splitlines` and the regular
    expression class `\w`. */
module Python {

  /** Python's `None` next to a value. */
  datatype Option<+T> = None | Some(value: T)

  /** The built-in exceptions that the modelled code raises and does not catch. */
  datatype Exception = ValueError | ZeroDivisionError | StatisticsError | OverflowError

  /** A computation that either returns a value or raises. */
  datatype Result<+T> = Ok(value: T) | Err(error: Exception)

  /** A metadata value: a closed variant in place of Python's `Any`. */
  datatype Scalar = Num(n: real) | Text(s: string) | Flag(b: bool)

  type Metadata = map<string, Scalar>

  /** `metadata or {}`: a missing mapping becomes the empty one (an empty mapping is
      falsy and is replaced by another empty one, which is the same value). */
  function OrEmpty(metadata: Option<Metadata>): Metadata
  {
    match metadata
    case None => map[]
    case Some(m) => m
  }

  function MinInt(a: int, b: int): int { if a <= b then a else b }

  /** Python's slice `s[-k:]`. For k > 0 it keeps the last k items (all of them when
      there are fewer); for k <= 0 the start index `-k` is non-negative, so the slice
      drops the first -k items, and `s[-0:]` is the whole of s. */
  function Suffix<T>(s: seq<T>, k: int): seq<T>
  {
    if k > 0 then s[|s| - MinInt(k, |s|)..] else s[MinInt(-k, |s|)..]
  }

  lemma SuffixShape<T>(s: seq<T>, k: int)
    ensures |Suffix(s, k)| <= |s|
    ensures Suffix(s, k) == s[|s| - |Suffix(s, k)|..]
    ensures k > 0 ==> |Suffix(s, k)| == MinInt(k, |s|)
    ensures k == 0 ==> Suffix(s, k) == s
    ensures k < 0 ==> |Suffix(s, k)| == |s| - MinInt(-k, |s|)
  {
  }

  /** `str.lower` restricted to ASCII letters. */
  function LowerChar(c: char): char
  {
    if 'A' <= c <= 'Z' then (c as int + 32) as char else c
  }

  function Lower(s: string): (r: string)
    ensures |r| == |s|
    ensures forall i :: 0 <= i < |s| ==> r[i] == LowerChar(s[i])
  {
    if s == [] then [] else [LowerChar(s[0])] + Lower(s[1..])
  }

  /** sub occurs in s starting at index i. */
  predicate OccursAt(s: string, sub: string, i: int)
  {
    0 <= i <= |s| - |sub| && s[i..i + |sub|] == sub
  }

  /** `sub in s` for strings: sub occurs in s as a contiguous block. */
  function Contains(s: string, sub: string): bool
    decreases |s|
  {
    if |sub| > |s| then false
    else if s[..|sub|] == sub then true
    else Contains(s[1..], sub)
  }

  /** `Contains` finds exactly the blocks that occur in s. */
  lemma {:induction false} ContainsOccurs(s: string, sub: string)
    ensures Contains(s, sub) <==> exists i :: OccursAt(s, sub, i)
    decreases |s|
  {
    if |sub| > |s| {
    } else if s[..|sub|] == sub {
      assert OccursAt(s, sub, 0);
    } else {
      ContainsOccurs(s[1..], sub);
      if exists i :: OccursAt(s, sub, i) {
        var i :| OccursAt(s, sub, i);
        assert i != 0;
        assert s[1..][i - 1..i - 1 + |sub|] == s[i..i + |sub|];
        assert OccursAt(s[1..], sub, i - 1);
      }
      if exists i :: OccursAt(s[1..], sub, i) {
        var i :| OccursAt(s[1..], sub, i);
        assert s[1..][i..i + |sub|] == s[i + 1..i + 1 + |sub|];
        assert OccursAt(s, sub, i + 1);
      }
    }
  }

  /** The class `\w` of Python's regular expressions, restricted to ASCII. */
  predicate IsWordChar(c: char)
  {
    ('a' <= c <= 'z') || ('A' <= c <= 'Z') || ('0' <= c <= '9') || c == '_'
  }

  /** The characters at which `str.splitlines` ends a line. */
  predicate IsLineBreak(c: char)
  {
    c == '\n' || c == '\r' || c as int == 0x0B || c as int == 0x0C
    || c as int == 0x1C || c as int == 0x1D || c as int == 0x1E
    || c as int == 0x85 || c as int == 0x2028 || c as int == 0x2029
  }

  /** Index of the first line break in s, or |s| when there is none. */
  function FirstBreak(s: string): (i: nat)
    ensures i <= |s|
    ensures i < |s| ==> IsLineBreak(s[i])
    ensures forall j :: 0 <= j < i ==> !IsLineBreak(s[j])
  {
    if s == [] then 0
    else if IsLineBreak(s[0]) then 0
    else 1 + FirstBreak(s[1..])
  }

  /** `str.splitlines()`: the text cut at line breaks, "\r\n" counting as one break,
      with no empty line after a final break. */
  function SplitLines(s: string): seq<string>
    decreases |s|
  {
    if s == [] then []
    else
      var i := FirstBreak(s);
      if i == |s| then [s]
      else
        var skip := if s[i] == '\r' && i + 1 < |s| && s[i + 1] == '\n' then 2 else 1;
        [s[..i]] + SplitLines(s[i + skip..])
  }

  predicate NoBreaks(line: string)
  {
    forall j :: 0 <= j < |line| ==> !IsLineBreak(line[j])
  }

  /** No line that `SplitLines` produces contains a line break. */
  lemma {:induction false} SplitLinesHaveNoBreaks(s: string)
    ensures forall line :: line in SplitLines(s) ==> NoBreaks(line)
    decreases |s|
  {
    if s != [] {
      var i := FirstBreak(s);
      if i == |s| {
        assert SplitLines(s) == [s];
        assert NoBreaks(s);
      } else {
        var skip := if s[i] == '\r' && i + 1 < |s| && s[i + 1] == '\n' then 2 else 1;
        var rest := s[i + skip..];
        var line := s[..i];
        SplitLinesHaveNoBreaks(rest);
        assert NoBreaks(line) by {
          forall j | 0 <= j < |line| ensures !IsLineBreak(line[j]) {
            assert line[j] == s[j];
          }
        }
        assert SplitLines(s) == [line] + SplitLines(rest);
        forall l | l in SplitLines(s) ensures NoBreaks(l) {
          if l != line {
            assert l in SplitLines(rest);
          }
        }
      }
    }
  }
}
