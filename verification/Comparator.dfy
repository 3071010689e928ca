/** Comparing a program's output with the expected one. Strings stand for Go's byte strings. */
module Comparator {
  // ----- The library operations that normalize chains -----

  /** strings.ReplaceAll(s, "\r\n", "\n"). */
  function ReplaceCRLF(s: string): string {
    if |s| < 2 then s
    else if s[0] == '\r' && s[1] == '\n' then ['\n'] + ReplaceCRLF(s[2..])
    else [s[0]] + ReplaceCRLF(s[1..])
  }

  /** strings.Split(s, "\n"). */
  function Split(s: string): (lines: seq<string>)
    ensures lines != []
    ensures forall line :: line in lines ==> '\n' !in line
  {
    if s == "" then [""]
    else
      var rest := Split(s[1..]);
      if s[0] == '\n' then [""] + rest else [[s[0]] + rest[0]] + rest[1..]
  }

  /** strings.Join(lines, "\n"). */
  function Join(lines: seq<string>): string {
    if lines == [] then "" else if |lines| == 1 then lines[0] else lines[0] + "\n" + Join(lines[1..])
  }

  predicate Blank(c: char) {
    c == ' ' || c == '\t'
  }

  /** strings.TrimRight(line, " \t"). */
  function TrimRight(line: string): (r: string)
    ensures r <= line
    ensures r != "" ==> !Blank(r[|r| - 1])
    ensures forall i :: |r| <= i < |line| ==> Blank(line[i])
  {
    if line != "" && Blank(line[|line| - 1]) then TrimRight(line[..|line| - 1]) else line
  }

  function TrimAll(lines: seq<string>): (r: seq<string>)
    ensures |r| == |lines|
    ensures forall i :: 0 <= i < |lines| ==> r[i] == TrimRight(lines[i])
  {
    seq(|lines|, i requires 0 <= i < |lines| => TrimRight(lines[i]))
  }

  function DropEmpty(lines: seq<string>): (r: seq<string>)
    ensures r <= lines
    ensures r != [] ==> r[|r| - 1] != ""
    ensures forall i :: |r| <= i < |lines| ==> lines[i] == ""
  {
    if lines != [] && lines[|lines| - 1] == "" then DropEmpty(lines[..|lines| - 1]) else lines
  }

  /** The lines that normalize keeps. */
  function KeptLines(s: string): seq<string> {
    DropEmpty(TrimAll(Split(ReplaceCRLF(s))))
  }

  function Normalize(s: string): string {
    Join(KeptLines(s))
  }

  // ----- What a comparison means -----

  function StripCR(line: string): string {
    if line != "" && line[|line| - 1] == '\r' then line[..|line| - 1] else line
  }

  /** Line i of s without its line ending (LF or CRLF) and its trailing blanks; empty past the end. */
  function LineAt(s: string, i: nat): string {
    var lines := Split(s);
    if i >= |lines| then "" else TrimRight(if i < |lines| - 1 then StripCR(lines[i]) else lines[i])
  }

  function Padded(lines: seq<string>, i: nat): string {
    if i < |lines| then lines[i] else ""
  }

  /** A character other than a newline joins the first line. */
  lemma SplitCons(c: char, s: string)
    requires c != '\n'
    ensures Split([c] + s) == [[c] + Split(s)[0]] + Split(s)[1..]
  {
    assert ([c] + s)[1..] == s;
  }

  /** Every line but the last lost one trailing CR, if it had any. */
  ghost predicate Stripped(raw: seq<string>, lines: seq<string>) {
    && |raw| == |lines|
    && forall i :: 0 <= i < |raw| ==> lines[i] == if i < |raw| - 1 then StripCR(raw[i]) else raw[i]
  }

  lemma StrippedAfter(first: string, raw: seq<string>, lines: seq<string>)
    requires raw != [] && Stripped(raw, lines)
    ensures Stripped([first] + raw, [StripCR(first)] + lines)
  {
  }

  lemma StripCons(c: char, line: string)
    requires c == '\r' ==> line != ""
    ensures StripCR([c] + line) == [c] + StripCR(line)
  {
    if line != "" {
      assert ([c] + line)[|line|] == line[|line| - 1];
    }
  }

  lemma StrippedCons(c: char, raw: seq<string>, lines: seq<string>)
    requires raw != [] && Stripped(raw, lines) && (c == '\r' && |raw| > 1 ==> raw[0] != "")
    ensures Stripped([[c] + raw[0]] + raw[1..], [[c] + lines[0]] + lines[1..])
  {
    if |raw| > 1 {
      StripCons(c, raw[0]);
      assert lines[0] == StripCR(raw[0]);
    }
    assert forall i :: 0 < i < |raw| ==>
      ([[c] + raw[0]] + raw[1..])[i] == raw[i] && ([[c] + lines[0]] + lines[1..])[i] == lines[i];
  }

  /** Replacing line endings before splitting strips one CR from every line but the last. */
  lemma {:induction false} SplitAfterReplace(s: string)
    ensures Stripped(Split(s), Split(ReplaceCRLF(s)))
  {
    if |s| < 2 {
    } else if s[0] == '\r' && s[1] == '\n' {
      SplitAfterReplace(s[2..]);
      assert s == "\r\n" + s[2..];
      SplitCRLF(s[2..]);
      SplitLF(ReplaceCRLF(s[2..]));
      StrippedAfter("\r", Split(s[2..]), Split(ReplaceCRLF(s[2..])));
    } else if s[0] == '\n' {
      SplitAfterReplace(s[1..]);
      assert s == ['\n'] + s[1..];
      SplitLF(s[1..]);
      SplitLF(ReplaceCRLF(s[1..]));
      StrippedAfter("", Split(s[1..]), Split(ReplaceCRLF(s[1..])));
    } else {
      SplitAfterReplace(s[1..]);
      assert s == [s[0]] + s[1..];
      SplitCons(s[0], s[1..]);
      SplitCons(s[0], ReplaceCRLF(s[1..]));
      SplitStart(s[1..]);
      StrippedCons(s[0], Split(s[1..]), Split(ReplaceCRLF(s[1..])));
    }
  }

  lemma SplitLF(s: string)
    ensures Split(['\n'] + s) == [""] + Split(s)
  {
    assert (['\n'] + s)[1..] == s;
  }

  lemma SplitCRLF(s: string)
    ensures Split("\r\n" + s) == ["\r"] + Split(s)
  {
    SplitLF(s);
    SplitCons('\r', ['\n'] + s);
    assert "\r\n" + s == ['\r'] + (['\n'] + s);
    assert ['\r'] + "" == "\r";
  }

  /** An empty first line that is not the only one means that the text starts with a newline. */
  lemma SplitStart(s: string)
    ensures |Split(s)| > 1 && Split(s)[0] == "" ==> s != "" && s[0] == '\n'
  {
  }

  lemma KeptLinesAt(s: string, i: nat)
    ensures Padded(KeptLines(s), i) == LineAt(s, i)
  {
    SplitAfterReplace(s);
  }

  /** Lists without trailing empty lines are equal when all their lines are, missing ones counting as empty. */
  lemma PaddedDetermines(a: seq<string>, b: seq<string>)
    requires a != [] ==> a[|a| - 1] != ""
    requires b != [] ==> b[|b| - 1] != ""
    requires forall i: nat :: Padded(a, i) == Padded(b, i)
    ensures a == b
  {
    assert b != [] ==> Padded(a, |b| - 1) == Padded(b, |b| - 1);
    assert a != [] ==> Padded(a, |a| - 1) == Padded(b, |a| - 1);
    forall i | 0 <= i < |a|
      ensures a[i] == b[i]
    {
      assert Padded(a, i) == Padded(b, i);
    }
  }

  lemma {:induction false} SplitLine(line: string)
    requires '\n' !in line
    ensures Split(line) == [line]
  {
    if line != "" {
      assert line == [line[0]] + line[1..];
      SplitLine(line[1..]);
      SplitCons(line[0], line[1..]);
    }
  }

  lemma {:induction false} SplitFirst(line: string, rest: string)
    requires '\n' !in line
    ensures Split(line + "\n" + rest) == [line] + Split(rest)
  {
    var s := line + "\n" + rest;
    if line == "" {
      assert s[1..] == rest;
    } else {
      assert s == [line[0]] + (line[1..] + "\n" + rest);
      SplitFirst(line[1..], rest);
      SplitCons(line[0], line[1..] + "\n" + rest);
      assert [line[0]] + line[1..] == line;
    }
  }

  /** Splitting undoes joining. */
  lemma {:induction false} SplitJoin(lines: seq<string>)
    requires lines != [] && forall line :: line in lines ==> '\n' !in line
    ensures Split(Join(lines)) == lines
  {
    if |lines| == 1 {
      SplitLine(lines[0]);
    } else {
      SplitFirst(lines[0], Join(lines[1..]));
      SplitJoin(lines[1..]);
    }
  }

  lemma {:induction false} JoinSplit(s: string)
    ensures Join(Split(s)) == s
  {
    if s != "" {
      JoinSplit(s[1..]);
    }
  }

  predicate NewlineFree(lines: seq<string>) {
    forall line :: line in lines ==> '\n' !in line
  }

  predicate NoTrailingEmpty(lines: seq<string>) {
    lines != [] ==> lines[|lines| - 1] != ""
  }

  lemma JoinEmpty(lines: seq<string>)
    requires NoTrailingEmpty(lines) && Join(lines) == ""
    ensures lines == []
  {
  }

  /** Joining loses nothing about lists of lines without trailing empty ones. */
  lemma JoinInjective(a: seq<string>, b: seq<string>)
    requires NewlineFree(a) && NewlineFree(b) && NoTrailingEmpty(a) && NoTrailingEmpty(b)
    requires Join(a) == Join(b)
    ensures a == b
  {
    if a == [] {
      JoinEmpty(b);
    } else if b == [] {
      JoinEmpty(a);
    } else {
      SplitJoin(a);
      SplitJoin(b);
    }
  }

  lemma KeptLinesNewlineFree(s: string)
    ensures NewlineFree(KeptLines(s))
  {
    var lines := Split(ReplaceCRLF(s));
    forall line | line in KeptLines(s)
      ensures '\n' !in line
    {
      var i :| 0 <= i < |KeptLines(s)| && KeptLines(s)[i] == line;
      assert lines[i] in lines && line <= lines[i];
    }
  }

  /**
   Two outputs compare equal exactly if they agree line by line, up to line endings,
   trailing blanks and trailing empty lines.
   */
  lemma WhitespaceCompareIff(expected: string, actual: string)
    ensures Normalize(expected) == Normalize(actual) <==> forall i: nat :: LineAt(expected, i) == LineAt(actual, i)
  {
    var a, b := KeptLines(expected), KeptLines(actual);
    if Normalize(expected) == Normalize(actual) {
      KeptLinesNewlineFree(expected);
      KeptLinesNewlineFree(actual);
      JoinInjective(a, b);
      forall i: nat
        ensures LineAt(expected, i) == LineAt(actual, i)
      {
        KeptLinesAt(expected, i);
        KeptLinesAt(actual, i);
      }
    }
    if forall i: nat :: LineAt(expected, i) == LineAt(actual, i) {
      forall i: nat
        ensures Padded(a, i) == Padded(b, i)
      {
        KeptLinesAt(expected, i);
        KeptLinesAt(actual, i);
      }
      PaddedDetermines(a, b);
    }
  }

  // ----- Idempotence -----

  predicate HasCRLF(s: string) {
    exists i :: 0 <= i < |s| - 1 && s[i] == '\r' && s[i + 1] == '\n'
  }

  predicate EndsInCR(line: string) {
    line != "" && line[|line| - 1] == '\r'
  }

  lemma {:induction false} ReplaceShortens(s: string)
    ensures |ReplaceCRLF(s)| <= |s|
    ensures HasCRLF(s) ==> |ReplaceCRLF(s)| < |s|
    ensures !HasCRLF(s) ==> ReplaceCRLF(s) == s
  {
    if |s| >= 2 {
      if s[0] == '\r' && s[1] == '\n' {
        ReplaceShortens(s[2..]);
      } else {
        ReplaceShortens(s[1..]);
        if HasCRLF(s) {
          var i :| 0 <= i < |s| - 1 && s[i] == '\r' && s[i + 1] == '\n';
          assert s[1..][i - 1] == '\r' && s[1..][i] == '\n';
        }
        if HasCRLF(s[1..]) {
          var i :| 0 <= i < |s[1..]| - 1 && s[1..][i] == '\r' && s[1..][i + 1] == '\n';
          assert s[i + 1] == '\r' && s[i + 2] == '\n';
        }
      }
    }
  }

  lemma {:induction false} TrimAllShortens(lines: seq<string>)
    ensures |Join(TrimAll(lines))| <= |Join(lines)|
  {
    if |lines| > 1 {
      assert TrimAll(lines)[1..] == TrimAll(lines[1..]);
      TrimAllShortens(lines[1..]);
    }
  }

  lemma {:induction false} PrefixShortens(lines: seq<string>, n: nat)
    requires n <= |lines|
    ensures |Join(lines[..n])| <= |Join(lines)|
  {
    if n > 1 {
      assert lines[..n][1..] == lines[1..][..n - 1];
      PrefixShortens(lines[1..], n - 1);
    }
  }

  /** Normalizing never makes an output longer. */
  lemma NormalizeShortens(s: string)
    ensures |Normalize(s)| <= |ReplaceCRLF(s)| <= |s|
  {
    ReplaceShortens(s);
    var lines := Split(ReplaceCRLF(s));
    JoinSplit(ReplaceCRLF(s));
    TrimAllShortens(lines);
    PrefixShortens(TrimAll(lines), |KeptLines(s)|);
    assert TrimAll(lines)[..|KeptLines(s)|] == KeptLines(s);
  }

  /** A normalized output without CRLF is a fixed point, and one with CRLF is not. */
  lemma NormalizeAgain(s: string)
    ensures Normalize(Normalize(s)) == Normalize(s) <==> !HasCRLF(Normalize(s))
  {
    var n, kept := Normalize(s), KeptLines(s);
    ReplaceShortens(n);
    if HasCRLF(n) {
      NormalizeShortens(n);
    } else if kept == [] {
      assert Split(n) == [""];
      assert TrimAll([""]) == [""];
    } else {
      KeptLinesNewlineFree(s);
      SplitJoin(kept);
      assert TrimAll(kept) == kept;
    }
  }

  lemma {:induction false} JoinCRLF(lines: seq<string>)
    requires NewlineFree(lines)
    ensures HasCRLF(Join(lines)) <==> exists i :: 0 <= i < |lines| - 1 && EndsInCR(lines[i])
  {
    if |lines| == 1 {
      assert lines[0] in lines;
    } else if |lines| > 1 {
      assert lines[0] in lines;
      JoinCRLF(lines[1..]);
      var rest := Join(lines[1..]);
      ConcatCRLF(lines[0], rest);
      if i :| 0 <= i < |lines| - 1 && EndsInCR(lines[i]) {
        if i > 0 {
          assert EndsInCR(lines[1..][i - 1]);
        }
      }
      if i :| 0 <= i < |lines[1..]| - 1 && EndsInCR(lines[1..][i]) {
        assert EndsInCR(lines[i + 1]);
      }
    }
  }

  lemma ConcatCRLF(line: string, rest: string)
    requires '\n' !in line
    ensures HasCRLF(line + "\n" + rest) <==> EndsInCR(line) || HasCRLF(rest)
  {
    var s, n := line + "\n" + rest, |line| + 1;
    assert forall m :: 0 <= m < |line| ==> line[m] in line && s[m] == line[m];
    if HasCRLF(s) {
      var i :| 0 <= i < |s| - 1 && s[i] == '\r' && s[i + 1] == '\n';
      if i >= n {
        assert rest[i - n] == '\r' && rest[i - n + 1] == '\n';
      }
    }
    if EndsInCR(line) {
      assert s[|line| - 1] == '\r' && s[|line| - 1 + 1] == '\n';
    }
    if HasCRLF(rest) {
      var i :| 0 <= i < |rest| - 1 && rest[i] == '\r' && rest[i + 1] == '\n';
      assert s[i + n] == '\r' && s[i + n + 1] == '\n';
    }
  }

  /**
   Normalizing twice is the same as once exactly if no line that is left ending in CR has a non-empty line after
   it.
   */
  lemma NormalizeIdempotentIff(s: string)
    ensures Normalize(Normalize(s)) == Normalize(s) <==>
      forall i: nat, k: nat :: i < k && EndsInCR(LineAt(s, i)) ==> LineAt(s, k) == ""
  {
    NormalizeAgain(s);
    KeptCRLF(s);
    InnerCR(KeptLines(s));
    forall i: nat
      ensures Padded(KeptLines(s), i) == LineAt(s, i)
    {
      KeptLinesAt(s, i);
    }
  }

  lemma KeptCRLF(s: string)
    ensures HasCRLF(Normalize(s)) <==> exists i :: 0 <= i < |KeptLines(s)| - 1 && EndsInCR(KeptLines(s)[i])
    ensures KeptLines(s) != [] ==> KeptLines(s)[|KeptLines(s)| - 1] != ""
  {
    KeptLinesNewlineFree(s);
    JoinCRLF(KeptLines(s));
  }

  lemma InnerCR(lines: seq<string>)
    requires lines != [] ==> lines[|lines| - 1] != ""
    ensures (exists i :: 0 <= i < |lines| - 1 && EndsInCR(lines[i])) <==>
      !forall i: nat, k: nat :: i < k && EndsInCR(Padded(lines, i)) ==> Padded(lines, k) == ""
  {
    if i :| 0 <= i < |lines| - 1 && EndsInCR(lines[i]) {
      assert EndsInCR(Padded(lines, i)) && Padded(lines, |lines| - 1) != "";
    }
  }

  /** In particular it is for every text whose CRs are all followed directly by LF. */
  lemma NormalizeIdempotentOnCleanText(s: string)
    requires forall i :: 0 <= i < |s| && s[i] == '\r' ==> i + 1 < |s| && s[i + 1] == '\n'
    ensures Normalize(Normalize(s)) == Normalize(s)
  {
    NormalizeIdempotentIff(s);
    forall i: nat
      ensures !EndsInCR(LineAt(s, i))
    {
      CleanLine(s, i);
    }
  }

  lemma CleanLine(s: string, i: nat)
    requires forall m :: 0 <= m < |s| && s[m] == '\r' ==> m + 1 < |s| && s[m + 1] == '\n'
    ensures '\r' !in LineAt(s, i)
  {
    CleanReplace(s);
    SplitAfterReplace(s);
    var lines := Split(ReplaceCRLF(s));
    SplitWithoutCR(ReplaceCRLF(s));
    if i < |lines| {
      assert lines[i] in lines;
      assert LineAt(s, i) == TrimRight(lines[i]);
    }
  }

  lemma {:induction false} CleanReplace(s: string)
    requires forall m :: 0 <= m < |s| && s[m] == '\r' ==> m + 1 < |s| && s[m + 1] == '\n'
    ensures '\r' !in ReplaceCRLF(s)
  {
    if |s| == 1 {
      assert s[0] != '\r';
    } else if |s| >= 2 {
      if s[0] == '\r' && s[1] == '\n' {
        assert forall m :: 0 <= m < |s[2..]| ==> s[2..][m] == s[m + 2];
        CleanReplace(s[2..]);
      } else {
        assert forall m :: 0 <= m < |s[1..]| ==> s[1..][m] == s[m + 1];
        CleanReplace(s[1..]);
      }
    }
  }

  lemma {:induction false} SplitWithoutCR(s: string)
    requires '\r' !in s
    ensures forall line :: line in Split(s) ==> '\r' !in line
  {
    if s != "" {
      SplitWithoutCR(s[1..]);
    }
  }

  /** A doubled CR before a line ending is stripped one CR at a time. */
  lemma NormalizeIsNotIdempotent()
    ensures Normalize(Normalize("\r\r\nx")) != Normalize("\r\r\nx")
  {
    var s := "\r\r\nx";
    SplitLine("x");
    SplitLine("\r\r");
    SplitFirst("\r\r", "x");
    assert s == "\r\r" + "\n" + "x";
    assert EndsInCR(LineAt(s, 0)) && LineAt(s, 1) == "x";
    NormalizeIdempotentIff(s);
  }

  // ----- The loops of normalize -----

  class WhitespaceComparator {
    constructor () {
    }

    method NormalizeOutput(s: string) returns (r: string)
      ensures r == Normalize(s)
    {
      var lines := Split(ReplaceCRLF(s));
      var kept: seq<string> := [];
      for i := 0 to |lines|
        invariant kept == TrimAll(lines)[..i]
      {
        kept := kept + [TrimRight(lines[i])];
      }
      assert kept == TrimAll(lines);
      while |kept| > 0 && kept[|kept| - 1] == ""
        invariant DropEmpty(kept) == KeptLines(s)
      {
        kept := kept[..|kept| - 1];
      }
      r := Join(kept);
    }

    method Compare(expected: string, actual: string) returns (equal: bool)
      ensures equal <==> forall i: nat :: LineAt(expected, i) == LineAt(actual, i)
    {
      var normExpected := NormalizeOutput(expected);
      var normActual := NormalizeOutput(actual);
      WhitespaceCompareIff(expected, actual);
      equal := normExpected == normActual;
    }
  }
}
