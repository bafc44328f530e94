/** The version-bump check of `scripts/check_version.py`: the commit-summary pattern,
    the classification of a commit log into the bump it requires, the bump a version
    change performs, and the exit code of `main` once the git and file reads are done. */
module CheckVersion {
  import opened Python

  /** The bump a commit requires, or a version change performs. */
  datatype Impact = Patch | Minor | Major

  function Rank(i: Impact): nat
  {
    match i
    case Patch => 1
    case Minor => 2
    case Major => 3
  }

  // ---------------------------------------------------------------------------
  // COMMIT_REGEX

  /** The length of the longest prefix of word characters, the greedy `(?P<type>\w+)`. */
  function WordPrefix(line: string): (k: nat)
    ensures k <= |line|
    ensures forall j :: 0 <= j < k ==> IsWordChar(line[j])
    ensures k < |line| ==> !IsWordChar(line[k])
  {
    if line == [] || !IsWordChar(line[0]) then 0 else 1 + WordPrefix(line[1..])
  }

  /** `COMMIT_REGEX.match(line)` succeeds: the line starts with a word character and has
      a ':' further on (the lazy `.*?` can skip anything up to it). */
  predicate Matches(line: string)
  {
    |line| > 0 && IsWordChar(line[0]) && ':' in line
  }

  predicate WordsUpTo(line: string, k: int)
  {
    0 < k <= |line| && forall j :: 0 <= j < k ==> IsWordChar(line[j])
  }

  predicate ColonFrom(line: string, k: int)
  {
    0 <= k <= |line| && ':' in line[k..]
  }

  /** `Matches` is the pattern: some non-empty run of word characters at the start of
      the line is followed, possibly after other characters, by a ':'. */
  lemma MatchesIsPattern(line: string)
    ensures Matches(line) <==> exists k :: WordsUpTo(line, k) && ColonFrom(line, k)
  {
    if Matches(line) {
      var k := WordPrefix(line);
      var c :| 0 <= c < |line| && line[c] == ':';
      assert !IsWordChar(':');
      assert c >= k;
      assert line[k..][c - k] == ':';
      assert WordsUpTo(line, k) && ColonFrom(line, k);
    }
    if exists k :: WordsUpTo(line, k) && ColonFrom(line, k) {
      var k :| WordsUpTo(line, k) && ColonFrom(line, k);
      assert IsWordChar(line[0]);
      var c :| 0 <= c < |line[k..]| && line[k..][c] == ':';
      assert line[k + c] == ':';
    }
  }

  /** `m.group("type").lower()`. */
  function CommitType(line: string): string
  {
    Lower(line[..WordPrefix(line)])
  }

  /** A '!' right after the type, or "breaking change" anywhere in the lower-cased line. */
  predicate IsBreaking(line: string)
  {
    (WordPrefix(line) < |line| && line[WordPrefix(line)] == '!')
    || Contains(Lower(line), "breaking change")
  }

  /** The commit types that require a patch bump. */
  const PatchTypes: set<string> := {"fix", "perf", "refactor", "docs", "chore", "test"}

  // ---------------------------------------------------------------------------
  // classify_commits, as written

  /** The result of the loop of `classify_commits` over the remaining lines, given the
      impact found so far. */
  function ClassifyLines(lines: seq<string>, highest: Option<Impact>): Option<Impact>
    decreases |lines|
  {
    if lines == [] then highest
    else
      var line := lines[0];
      if !Matches(line) then ClassifyLines(lines[1..], highest)
      else if IsBreaking(line) then Some(Major)
      else if CommitType(line) == "feat" then
        ClassifyLines(lines[1..], if highest.Some? then highest else Some(Minor))
      else if CommitType(line) in PatchTypes && highest.None? then ClassifyLines(lines[1..], Some(Patch))
      else ClassifyLines(lines[1..], highest)
  }

  /** `classify_commits(log)`. */
  method ClassifyCommits(log: string) returns (impact: Option<Impact>)
    ensures impact == ClassifyLines(SplitLines(log), None)
  {
    var lines := SplitLines(log);
    var highest: Option<Impact> := None;
    var i := 0;
    while i < |lines|
      invariant 0 <= i <= |lines|
      invariant ClassifyLines(lines[i..], highest) == ClassifyLines(lines, None)
    {
      var line := lines[i];
      assert lines[i..][1..] == lines[i + 1..];
      if !Matches(line) {
        i := i + 1;
        continue;
      }
      var ctype := CommitType(line);
      var breaking := (WordPrefix(line) < |line| && line[WordPrefix(line)] == '!')
                      || Contains(Lower(line), "breaking change");
      if breaking {
        return Some(Major);
      }
      if ctype == "feat" {
        highest := if highest.Some? then highest else Some(Minor);
      } else if ctype in PatchTypes && highest.None? {
        highest := Some(Patch);
      }
      i := i + 1;
    }
    assert lines[i..] == [];
    impact := highest;
  }

  /** The impact one line asks for on its own. */
  function LineImpact(line: string): Option<Impact>
  {
    if !Matches(line) then None
    else if IsBreaking(line) then Some(Major)
    else if CommitType(line) == "feat" then Some(Minor)
    else if CommitType(line) in PatchTypes then Some(Patch)
    else None
  }

  /** The lines the pattern matches, in order. */
  function Qualifying(lines: seq<string>): seq<string>
  {
    if lines == [] then []
    else (if Matches(lines[0]) then [lines[0]] else []) + Qualifying(lines[1..])
  }

  /** Lines the pattern does not match never affect the result. */
  lemma {:induction false} OnlyMatchingLinesCount(lines: seq<string>, highest: Option<Impact>)
    ensures ClassifyLines(lines, highest) == ClassifyLines(Qualifying(lines), highest)
    decreases |lines|
  {
    if lines != [] {
      var rest := lines[1..];
      forall h: Option<Impact> ensures ClassifyLines(rest, h) == ClassifyLines(Qualifying(rest), h) {
        OnlyMatchingLinesCount(rest, h);
      }
      if Matches(lines[0]) {
        var q := [lines[0]] + Qualifying(rest);
        assert q[0] == lines[0] && q[1..] == Qualifying(rest);
      } else {
        assert Qualifying(lines) == Qualifying(rest);
      }
    }
  }

  predicate BreakingAt(lines: seq<string>, i: int)
  {
    0 <= i < |lines| && Matches(lines[i]) && IsBreaking(lines[i])
  }

  /** A matching line that marks a breaking change makes the result "major", wherever
      it stands. */
  lemma {:induction false} BreakingWins(lines: seq<string>, highest: Option<Impact>, i: int)
    requires BreakingAt(lines, i)
    ensures ClassifyLines(lines, highest) == Some(Major)
    decreases |lines|
  {
    if i > 0 && !(Matches(lines[0]) && IsBreaking(lines[0])) {
      var next := if !Matches(lines[0]) then highest
                  else if CommitType(lines[0]) == "feat" then (if highest.Some? then highest else Some(Minor))
                  else if CommitType(lines[0]) in PatchTypes && highest.None? then Some(Patch)
                  else highest;
      assert BreakingAt(lines[1..], i - 1);
      BreakingWins(lines[1..], next, i - 1);
    }
  }

  /** Without breaking lines, an impact once found is final: a later feat does not
      raise "patch" and a later fix does not lower "minor". */
  lemma {:induction false} SettledStays(lines: seq<string>, highest: Option<Impact>)
    requires highest.Some?
    requires forall i :: !BreakingAt(lines, i)
    ensures ClassifyLines(lines, highest) == highest
    decreases |lines|
  {
    if lines != [] {
      assert !BreakingAt(lines, 0);
      forall i ensures !BreakingAt(lines[1..], i) {
        assert BreakingAt(lines[1..], i) ==> BreakingAt(lines, i + 1);
      }
      SettledStays(lines[1..], highest);
    }
  }

  /** The impact of the first line that asks for one, if any. */
  function FirstImpact(lines: seq<string>): Option<Impact>
  {
    if lines == [] then None
    else if LineImpact(lines[0]).Some? then LineImpact(lines[0])
    else FirstImpact(lines[1..])
  }

  /** Without breaking lines the first line that asks for a bump fixes the result, and
      there is none exactly when no line asks for one. */
  lemma {:induction false} FirstQualifyingWins(lines: seq<string>)
    requires forall i :: !BreakingAt(lines, i)
    ensures ClassifyLines(lines, None) == FirstImpact(lines)
    ensures FirstImpact(lines).None? <==> forall i :: 0 <= i < |lines| ==> LineImpact(lines[i]).None?
    decreases |lines|
  {
    if lines != [] {
      assert !BreakingAt(lines, 0);
      forall i ensures !BreakingAt(lines[1..], i) {
        assert BreakingAt(lines[1..], i) ==> BreakingAt(lines, i + 1);
      }
      FirstQualifyingWins(lines[1..]);
      if LineImpact(lines[0]).Some? {
        SettledStays(lines[1..], LineImpact(lines[0]));
      }
      assert forall i :: 0 < i < |lines| ==> lines[i] == lines[1..][i - 1];
    }
  }

  // ---------------------------------------------------------------------------
  // classify_commits, corrected

  function MaxImpact(a: Option<Impact>, b: Option<Impact>): Option<Impact>
  {
    if a.None? then b
    else if b.None? then a
    else if Rank(a.value) >= Rank(b.value) then a else b
  }

  /** The highest impact any line asks for, which the docstring promises. */
  function HighestImpact(lines: seq<string>): Option<Impact>
  {
    if lines == [] then None else MaxImpact(LineImpact(lines[0]), HighestImpact(lines[1..]))
  }

  /** Taking the higher of two impacts does not depend on their order. */
  lemma MaxImpactCommutes(a: Option<Impact>, b: Option<Impact>)
    ensures MaxImpact(a, b) == MaxImpact(b, a)
  {
    if a.Some? && b.Some? && Rank(a.value) == Rank(b.value) {
      assert a.value == b.value by {
        match a.value
        case Patch =>
        case Minor =>
        case Major =>
      }
    }
  }

  /** The highest impact of a log made of two parts is the higher of theirs. */
  lemma {:induction false} HighestImpactSplit(a: seq<string>, b: seq<string>)
    ensures HighestImpact(a + b) == MaxImpact(HighestImpact(a), HighestImpact(b))
    decreases |a|
  {
    if a == [] {
      assert a + b == b;
    } else {
      assert (a + b)[1..] == a[1..] + b;
      HighestImpactSplit(a[1..], b);
    }
  }

  /** The highest impact does not depend on the order of the commits. */
  lemma HighestImpactSwap(a: seq<string>, b: seq<string>)
    ensures HighestImpact(a + b) == HighestImpact(b + a)
  {
    HighestImpactSplit(a, b);
    HighestImpactSplit(b, a);
    MaxImpactCommutes(HighestImpact(a), HighestImpact(b));
  }

  /** The highest impact is asked for by some line and no line asks for more; it is None
      exactly when no line asks for a bump. */
  lemma {:induction false} HighestImpactSpec(lines: seq<string>)
    ensures HighestImpact(lines).None? <==> forall i :: 0 <= i < |lines| ==> LineImpact(lines[i]).None?
    ensures HighestImpact(lines).Some? ==>
              (exists i :: 0 <= i < |lines| && LineImpact(lines[i]) == HighestImpact(lines))
              && forall i :: 0 <= i < |lines| && LineImpact(lines[i]).Some? ==>
                             Rank(LineImpact(lines[i]).value) <= Rank(HighestImpact(lines).value)
    decreases |lines|
  {
    if lines != [] {
      HighestImpactSpec(lines[1..]);
      assert forall i :: 0 < i < |lines| ==> lines[i] == lines[1..][i - 1];
      if HighestImpact(lines).Some? {
        if HighestImpact(lines) == LineImpact(lines[0]) {
          assert LineImpact(lines[0]) == HighestImpact(lines);
        } else {
          var j :| 0 <= j < |lines[1..]| && LineImpact(lines[1..][j]) == HighestImpact(lines[1..]);
          assert LineImpact(lines[j + 1]) == HighestImpact(lines);
        }
      }
    }
  }

  /** A line shorter than "breaking change" whose type runs up to a ':' asks for the
      bump its lower-cased type names. */
  lemma TypedLineImpact(line: string, k: nat)
    requires 0 < k < |line| < |"breaking change"|
    requires WordPrefix(line) == k && line[k] == ':'
    ensures LineImpact(line) == if CommitType(line) == "feat" then Some(Minor)
                                else if CommitType(line) in PatchTypes then Some(Patch)
                                else None
  {
    assert line[k] in line;
    assert !Contains(Lower(line), "breaking change");
  }

  /** "fix: a" asks for a patch bump. */
  lemma FixLine()
    ensures LineImpact("fix: a") == Some(Patch)
  {
    var fix := "fix: a";
    assert WordPrefix(fix) == 3 by {
      assert WordPrefix(fix[3..]) == 0;
      assert fix[3..] == fix[1..][1..][1..];
    }
    assert CommitType(fix) == "fix" by {
      assert fix[..3] == "fix";
      assert Lower("fix") == "fix";
    }
    TypedLineImpact(fix, 3);
  }

  /** "feat: b" asks for a minor bump. */
  lemma FeatLine()
    ensures LineImpact("feat: b") == Some(Minor)
  {
    var feat := "feat: b";
    assert WordPrefix(feat) == 4 by {
      assert WordPrefix(feat[4..]) == 0;
      assert feat[4..] == feat[1..][1..][1..][1..];
    }
    assert CommitType(feat) == "feat" by {
      assert feat[..4] == "feat";
      assert Lower("feat") == "feat";
    }
    TypedLineImpact(feat, 4);
  }

  /** A line asking for a patch followed by one asking for a minor bump: the loop keeps
      "patch" although "minor" is the highest impact in the log. */
  lemma PatchHidesLaterMinor(first: string, second: string)
    requires LineImpact(first) == Some(Patch) && LineImpact(second) == Some(Minor)
    ensures ClassifyLines([first, second], None) == Some(Patch)
    ensures HighestImpact([first, second]) == Some(Minor)
  {
    var lines := [first, second];
    assert lines[0] == first && lines[1..] == [second] && lines[1..][1..] == [];
    assert ClassifyLines([second], Some(Patch)) == Some(Patch) by {
      assert [second][0] == second && [second][1..] == [];
    }
    assert HighestImpact([second]) == Some(Minor) by {
      assert [second][0] == second && [second][1..] == [];
    }
  }

  /** The log "fix: a" then "feat: b" is classified "patch"; its highest impact is
      "minor". */
  lemma FixThenFeat()
    ensures ClassifyLines(["fix: a", "feat: b"], None) == Some(Patch)
    ensures HighestImpact(["fix: a", "feat: b"]) == Some(Minor)
  {
    FixLine();
    FeatLine();
    PatchHidesLaterMinor("fix: a", "feat: b");
  }

  // ---------------------------------------------------------------------------
  // expected_bump_from_versions

  /** `v.split(".")`: the text cut at every dot; a text without dots is one part. */
  function SplitDots(v: string): (parts: seq<string>)
    ensures |parts| > 0
  {
    if v == [] then [""]
    else
      var rest := SplitDots(v[1..]);
      if v[0] == '.' then [""] + rest else [[v[0]] + rest[0]] + rest[1..]
  }

  /** No part of a split holds a dot. */
  lemma {:induction false} SplitDotsPartsHaveNoDot(v: string)
    ensures forall p :: p in SplitDots(v) ==> '.' !in p
  {
    if v != [] {
      SplitDotsPartsHaveNoDot(v[1..]);
      var rest := SplitDots(v[1..]);
      assert rest[0] in rest;
      forall p | p in rest[1..] ensures p in rest { }
    }
  }

  /** A text without dots is its own single part. */
  lemma {:induction false} SplitDotsNoDot(x: string)
    requires '.' !in x
    ensures SplitDots(x) == [x]
  {
    if x != [] {
      assert '.' !in x[1..] by {
        forall c | c in x[1..] ensures c in x { }
      }
      SplitDotsNoDot(x[1..]);
      assert x == [x[0]] + x[1..];
    }
  }

  /** Splitting at the dots of "v.x" splits v and x apart. */
  lemma {:induction false} SplitDotsAppend(v: string, x: string)
    ensures SplitDots(v + "." + x) == SplitDots(v) + SplitDots(x)
  {
    var joined := v + "." + x;
    if v == [] {
      assert joined == "." + x;
      assert joined[1..] == x;
    } else {
      assert joined[0] == v[0];
      assert joined[1..] == v[1..] + "." + x;
      SplitDotsAppend(v[1..], x);
    }
  }

  predicate IsDigit(c: char) { '0' <= c <= '9' }

  predicate AllDigits(s: string)
  {
    forall i :: 0 <= i < |s| ==> IsDigit(s[i])
  }

  function DigitsValue(s: string): nat
    requires AllDigits(s)
  {
    if s == [] then 0
    else DigitsValue(s[..|s| - 1]) * 10 + (s[|s| - 1] as int - '0' as int)
  }

  /** `int(x)` for an optional sign followed by decimal digits. */
  function ParseInt(x: string): Option<int>
  {
    if |x| > 0 && (x[0] == '+' || x[0] == '-') then
      var digits := x[1..];
      if |digits| > 0 && AllDigits(digits) then
        var magnitude: int := DigitsValue(digits);
        Some(if x[0] == '-' then -magnitude else magnitude)
      else None
    else if |x| > 0 && AllDigits(x) then Some(DigitsValue(x))
    else None
  }

  datatype Version = Version(major: int, minor: int, patch: int)

  /** The local `split(v)`: the first three dot-separated parts as integers; fewer parts,
      or a part `int` rejects, raise ValueError; further parts are ignored. */
  function ParseVersion(v: string): Result<Version>
  {
    var parts := SplitDots(v);
    if |parts| < 3 then Err(ValueError)
    else
      match (ParseInt(parts[0]), ParseInt(parts[1]), ParseInt(parts[2]))
      case (Some(a), Some(b), Some(c)) => Ok(Version(a, b, c))
      case _ => Err(ValueError)
  }

  /** Decimal digits of a natural number, as `str` writes it. */
  function ShowNat(n: nat): (s: string)
    ensures |s| > 0 && AllDigits(s)
  {
    if n < 10 then [(n + '0' as int) as char] else ShowNat(n / 10) + [(n % 10 + '0' as int) as char]
  }

  lemma {:induction false} ShowNatValue(n: nat)
    ensures DigitsValue(ShowNat(n)) == n
    ensures '.' !in ShowNat(n)
  {
    var s := ShowNat(n);
    if n < 10 {
      assert s[..0] == [];
    } else {
      ShowNatValue(n / 10);
      assert s[..|s| - 1] == ShowNat(n / 10);
    }
  }

  /** The text "major.minor.patch" of three natural numbers. */
  function ShowVersion(major: nat, minor: nat, patch: nat): string
  {
    ShowNat(major) + "." + ShowNat(minor) + "." + ShowNat(patch)
  }

  /** Splitting "x.rest" for a dot-free x gives x followed by the parts of rest. */
  lemma SplitDotsCons(x: string, rest: string)
    requires '.' !in x
    ensures SplitDots(x + "." + rest) == [x] + SplitDots(rest)
  {
    SplitDotsAppend(x, rest);
    SplitDotsNoDot(x);
  }

  /** `int` reads the decimal text of a natural number back as that number. */
  lemma ParseShowNat(n: nat)
    ensures ParseInt(ShowNat(n)) == Some(n)
  {
    ShowNatValue(n);
    var t := ShowNat(n);
    assert IsDigit(t[0]);
  }

  /** Three dot-free texts joined by dots split back into the three. */
  lemma SplitThree(a: string, b: string, c: string)
    requires '.' !in a && '.' !in b && '.' !in c
    ensures SplitDots(a + "." + b + "." + c) == [a, b, c]
  {
    var ab := a + "." + b;
    SplitDotsAppend(a, b);
    SplitDotsAppend(ab, c);
    SplitDotsNoDot(a);
    SplitDotsNoDot(b);
    SplitDotsNoDot(c);
  }

  /** The text of three natural numbers splits at its dots into their three texts. */
  lemma SplitShowVersion(major: nat, minor: nat, patch: nat)
    ensures SplitDots(ShowVersion(major, minor, patch)) == [ShowNat(major), ShowNat(minor), ShowNat(patch)]
  {
    ShowNatValue(major);
    ShowNatValue(minor);
    ShowNatValue(patch);
    SplitThree(ShowNat(major), ShowNat(minor), ShowNat(patch));
  }

  /** Parsing the text of three natural numbers gives them back. */
  lemma ParseShowVersion(major: nat, minor: nat, patch: nat)
    ensures ParseVersion(ShowVersion(major, minor, patch)) == Ok(Version(major, minor, patch))
  {
    SplitShowVersion(major, minor, patch);
    ParseShowNat(major);
    ParseShowNat(minor);
    ParseShowNat(patch);
  }

  /** `expected_bump_from_versions(old, new)` as written, with old as `previous` and new as `next`: the components are compared
      one at a time, each comparison on its own. */
  function ExpectedBump(previous: string, next: string): Result<Option<Impact>>
  {
    match (ParseVersion(previous), ParseVersion(next))
    case (Err(e), _) => Err(e)
    case (_, Err(e)) => Err(e)
    case (Ok(o), Ok(n)) => Ok(ComponentwiseBump(o, n))
  }

  function ComponentwiseBump(o: Version, n: Version): Option<Impact>
  {
    if n.major > o.major then Some(Major)
    else if n.minor > o.minor then Some(Minor)
    else if n.patch > o.patch then Some(Patch)
    else None
  }

  /** new is a later version than old: the first component that differs is larger. */
  predicate Later(n: Version, o: Version)
  {
    n.major > o.major
    || (n.major == o.major && n.minor > o.minor)
    || (n.major == o.major && n.minor == o.minor && n.patch > o.patch)
  }

  /** The bump a move from o to n performs, for a later n: the first component that
      grew; no bump when n is not later. */
  function OrderedBump(o: Version, n: Version): Option<Impact>
  {
    if !Later(n, o) then None
    else if n.major > o.major then Some(Major)
    else if n.minor > o.minor then Some(Minor)
    else Some(Patch)
  }

  /** `expected_bump_from_versions`, corrected to compare versions in order. */
  function ExpectedBumpOrdered(previous: string, next: string): Result<Option<Impact>>
  {
    match (ParseVersion(previous), ParseVersion(next))
    case (Err(e), _) => Err(e)
    case (_, Err(e)) => Err(e)
    case (Ok(o), Ok(n)) => Ok(OrderedBump(o, n))
  }

  /** The corrected bump names a bump exactly when the new version is later, and then
      it is major for a new major version, minor for a new minor version of the same
      major one, and patch otherwise. Both definitions agree on every move that does
      not go back, and an equal version never asks for a bump. */
  lemma OrderedBumpSpec(o: Version, n: Version)
    ensures OrderedBump(o, n).Some? <==> Later(n, o)
    ensures OrderedBump(o, n) == Some(Major) <==> n.major > o.major
    ensures OrderedBump(o, n) == Some(Minor) <==> n.major == o.major && n.minor > o.minor
    ensures OrderedBump(o, n) == Some(Patch) <==> n.major == o.major && n.minor == o.minor && n.patch > o.patch
    ensures Later(n, o) || n == o ==> ComponentwiseBump(o, n) == OrderedBump(o, n)
    ensures ComponentwiseBump(o, o) == None
  {
  }

  /** Going back from 2.0.0 to 1.5.0: the code as written reports a minor bump, the
      corrected comparison reports none. */
  lemma DowngradeReadAsMinor()
    ensures ExpectedBump("2.0.0", "1.5.0") == Ok(Some(Minor))
    ensures ExpectedBumpOrdered("2.0.0", "1.5.0") == Ok(None)
  {
    ParseShowVersion(2, 0, 0);
    ParseShowVersion(1, 5, 0);
    assert ShowVersion(2, 0, 0) == "2.0.0";
    assert ShowVersion(1, 5, 0) == "1.5.0";
  }

  /** A version with fewer than three parts, or with one of its first three parts not an
      integer, raises ValueError; otherwise it is those three integers. */
  lemma ParseVersionErrors(v: string)
    ensures |SplitDots(v)| < 3 ==> ParseVersion(v) == Err(ValueError)
    ensures ParseInt(SplitDots(v)[0]).None? ==> ParseVersion(v) == Err(ValueError)
    ensures ParseVersion(v).Ok? ==> |SplitDots(v)| >= 3
    ensures |SplitDots(v)| >= 3 ==>
              (ParseVersion(v).Ok? <==> ParseInt(SplitDots(v)[0]).Some?
                                        && ParseInt(SplitDots(v)[1]).Some?
                                        && ParseInt(SplitDots(v)[2]).Some?)
    ensures ParseVersion(v).Ok? ==>
              ParseVersion(v).value == Version(ParseInt(SplitDots(v)[0]).value,
                                               ParseInt(SplitDots(v)[1]).value,
                                               ParseInt(SplitDots(v)[2]).value)
  {
  }

  /** Parts after the third are ignored: appending ".x" to a version of at least three
      parts parses to the same result, whatever x is. */
  lemma ExtraPartsIgnored(v: string, x: string)
    requires |SplitDots(v)| >= 3
    ensures ParseVersion(v + "." + x) == ParseVersion(v)
  {
    SplitDotsAppend(v, x);
    assert SplitDots(v + "." + x)[..3] == SplitDots(v)[..3];
  }

  // ---------------------------------------------------------------------------
  // main

  /** The exit code of `main`, or the exception that escapes it. `baseFetched` says
      whether `git fetch` of the base branch succeeded, `old` is the version read from
      the base branch (`old_version`; None when it could not be read), and `impact` is
      `classify_commits` of the commit summaries since the base. */
  function MainDecision(baseFetched: bool, current: string, baseVersion: Option<string>, impact: Option<Impact>)
    : Result<int>
  {
    if !baseFetched || baseVersion.None? then Ok(2)
    else if current == baseVersion.value then Ok(if impact.Some? then 1 else 0)
    else
      match ExpectedBump(baseVersion.value, current)
      case Err(e) => Err(e)
      case Ok(None) => Ok(1)
      case Ok(Some(expected)) => Ok(if impact.Some? && impact.value != expected then 1 else 0)
  }

  /** The decision table: 2 when the base or its version is unavailable; for an
      unchanged version, 1 exactly when the commits ask for a bump; for a changed one,
      an error when a version does not parse, and otherwise 1 exactly when no bump is
      recognised or the commits ask for a different one. Exit 0 after a change means
      the commits ask for no bump or for the one performed. */
  lemma MainDecisionSpec(baseFetched: bool, current: string, baseVersion: Option<string>, impact: Option<Impact>)
    ensures var r := MainDecision(baseFetched, current, baseVersion, impact);
            && (r == Ok(2) <==> !baseFetched || baseVersion.None?)
            && (baseFetched && baseVersion.Some? && current == baseVersion.value ==> (r == Ok(1) <==> impact.Some?) && r.Ok?)
            && (baseFetched && baseVersion.Some? && current != baseVersion.value ==>
                  && (r.Err? <==> ExpectedBump(baseVersion.value, current).Err?)
                  && (r == Ok(1) <==> ExpectedBump(baseVersion.value, current).Ok?
                                      && (ExpectedBump(baseVersion.value, current).value.None?
                                          || (impact.Some? && impact != ExpectedBump(baseVersion.value, current).value)))
                  && (r == Ok(0) ==> impact.None? || impact == ExpectedBump(baseVersion.value, current).value))
  {
  }
}
