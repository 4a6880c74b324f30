/**
 The environment-variable migration (scripts/migrate_baldur_env_vars.py): every line of a
 text is rewritten by the first rule that matches at its start. This module is about any
 list of rules; the rules of the script are in EnvRenames.
 */
module EnvMigration {
  /** Replace `stem` at the start of a line by `target`, unless one of some strings comes right behind it. */
  datatype Rename = Rename(stem: string, unless: seq<string>, target: string)

  predicate Blocked(unless: seq<string>, rest: string) {
    exists k | 0 <= k < |unless| :: unless[k] <= rest
  }

  predicate Matches(r: Rename, line: string) {
    r.stem <= line && !Blocked(r.unless, line[|r.stem|..])
  }

  /** re.sub anchored at the start of the line. */
  function Substitute(r: Rename, line: string): string {
    if Matches(r, line) then r.target + line[|r.stem|..] else line
  }

  /** The line rewritten by the first rule from `i` on that changes it. */
  function RewriteFrom(rules: seq<Rename>, i: nat, line: string): string
    requires i <= |rules|
    decreases |rules| - i
  {
    if i == |rules| then line
    else if Substitute(rules[i], line) != line then Substitute(rules[i], line)
    else RewriteFrom(rules, i + 1, line)
  }

  function Rewrite(rules: seq<Rename>, line: string): string {
    RewriteFrom(rules, 0, line)
  }

  // ---------------------------------------------------------------------------
  // Normal forms
  // ---------------------------------------------------------------------------

  /** Rule `r` never matches a line that begins with what rule `q` writes. */
  ghost predicate Inert(r: Rename, q: Rename) {
    forall rest :: !Matches(r, q.target + rest)
  }

  ghost predicate Normalizing(rules: seq<Rename>) {
    forall i, j | 0 <= i < |rules| && 0 <= j < |rules| :: Inert(rules[i], rules[j])
  }

  lemma SubstituteChanges(r: Rename, line: string)
    requires Inert(r, r) && Matches(r, line)
    ensures Substitute(r, line) != line
  {
    assert !Matches(r, r.target + line[|r.stem|..]);
  }

  /** The line is as it was, or the first matching rule has been applied and has changed it. */
  lemma {:induction false} RewriteFirst(rules: seq<Rename>, i: nat, line: string) returns (hit: nat)
    requires Normalizing(rules) && i <= |rules|
    ensures i <= hit <= |rules| && forall k | i <= k < hit :: !Matches(rules[k], line)
    ensures hit < |rules| ==> Matches(rules[hit], line) &&
                              RewriteFrom(rules, i, line) == Substitute(rules[hit], line) != line
    ensures hit == |rules| ==> RewriteFrom(rules, i, line) == line
    decreases |rules| - i
  {
    if i == |rules| {
      hit := i;
    } else if Matches(rules[i], line) {
      hit := i;
      SubstituteChanges(rules[i], line);
    } else {
      hit := RewriteFirst(rules, i + 1, line);
    }
  }

  /** One pass reaches the normal form of a line. */
  lemma RewriteTwice(rules: seq<Rename>, line: string)
    requires Normalizing(rules)
    ensures Rewrite(rules, Rewrite(rules, line)) == Rewrite(rules, line)
  {
    var hit := RewriteFirst(rules, 0, line);
    if hit < |rules| {
      var again := RewriteFirst(rules, 0, Rewrite(rules, line));
      assert again < |rules| ==> Inert(rules[again], rules[hit]);
    }
  }

  // ---------------------------------------------------------------------------
  // What a line keeps
  // ---------------------------------------------------------------------------

  /** The length of the longest prefix without a character that satisfies `p`. */
  function Find(s: string, p: char -> bool): (n: nat)
    ensures n <= |s| && (n < |s| ==> p(s[n])) && forall k | 0 <= k < n :: !p(s[k])
  {
    if s == "" || p(s[0]) then 0 else 1 + Find(s[1..], p)
  }

  lemma FindSkips(a: string, b: string, p: char -> bool)
    requires forall k | 0 <= k < |a| :: !p(a[k])
    ensures Find(a + b, p) == |a| + Find(b, p)
  {
    var m, n := Find(a + b, p), Find(b, p);
    assert forall k | 0 <= k < |a| :: (a + b)[k] == a[k];
    assert forall k | 0 <= k < |b| :: (a + b)[|a| + k] == b[k];
    assert m >= |a| && (n < |b| ==> p((a + b)[|a| + n]));
    assert m < |a + b| ==> p(b[m - |a|]);
  }

  predicate IsEquals(c: char) {
    c == '='
  }

  /** The characters str.splitlines breaks at. */
  predicate IsBreak(c: char) {
    var n := c as int;
    0x0A <= n <= 0x0D || 0x1C <= n <= 0x1E || n == 0x85 || n == 0x2028 || n == 0x2029
  }

  /** Line feed to carriage return, the three separators, next line, and the Unicode line and paragraph separators. */
  lemma BreakCharacters(c: char)
    ensures IsBreak(c) <==> c in ['\n', '\U{0B}', '\U{0C}', '\r', '\U{1C}', '\U{1D}', '\U{1E}', '\U{85}',
                                  '\U{2028}', '\U{2029}']
  {
  }

  /** A line from its first equals sign on. */
  function Value(line: string): string {
    line[Find(line, IsEquals)..]
  }

  function Terminator(line: string): string {
    line[Find(line, IsBreak)..]
  }

  /** No line break, and no equals sign except at the very end. */
  ghost predicate IsKey(s: string) {
    s != "" && (forall k | 0 <= k < |s| :: !IsBreak(s[k])) && forall k | 0 <= k < |s| - 1 :: !IsEquals(s[k])
  }

  /** A rule that replaces a name by a name, both with an equals sign or both without, and keeps its first letter. */
  ghost predicate RenamesKey(r: Rename) {
    IsKey(r.stem) && IsKey(r.target) && r.stem[0] == r.target[0] &&
    (IsEquals(r.stem[|r.stem| - 1]) <==> IsEquals(r.target[|r.target| - 1]))
  }

  ghost predicate RenameKeys(rules: seq<Rename>) {
    forall i | 0 <= i < |rules| :: RenamesKey(rules[i])
  }

  lemma TerminatorBehind(key: string, rest: string)
    requires IsKey(key)
    ensures Terminator(key + rest) == Terminator(rest)
  {
    FindSkips(key, rest, IsBreak);
  }

  /** No equals sign up to the end of `s`. */
  ghost predicate NoEquals(s: string) {
    forall k | 0 <= k < |s| :: !IsEquals(s[k])
  }

  lemma ValueSkips(a: string, b: string)
    requires NoEquals(a)
    ensures Value(a + b) == Value(b)
  {
    FindSkips(a, b, IsEquals);
  }

  lemma ValueBehind(key: string, rest: string)
    requires IsKey(key)
    ensures Value(key + rest) == if IsEquals(key[|key| - 1]) then "=" + rest else Value(rest)
  {
    if IsEquals(key[|key| - 1]) {
      var name := key[..|key| - 1];
      assert key + rest == name + ("=" + rest);
      ValueSkips(name, "=" + rest);
      assert Find("=" + rest, IsEquals) == 0;
    } else {
      assert NoEquals(key);
      ValueSkips(key, rest);
    }
  }

  /** Rewriting keeps the value and the terminator of a line. */
  lemma RewriteKeeps(rules: seq<Rename>, line: string)
    requires Normalizing(rules) && RenameKeys(rules)
    ensures Value(Rewrite(rules, line)) == Value(line) && Terminator(Rewrite(rules, line)) == Terminator(line)
  {
    var hit := RewriteFirst(rules, 0, line);
    if hit < |rules| {
      var r := rules[hit];
      var rest := line[|r.stem|..];
      assert line == r.stem + rest;
      ValueBehind(r.stem, rest);
      ValueBehind(r.target, rest);
      TerminatorBehind(r.stem, rest);
      TerminatorBehind(r.target, rest);
    }
  }

  // ---------------------------------------------------------------------------
  // Lines
  // ---------------------------------------------------------------------------

  /** The length of the first line, its terminator included. */
  function LineEnd(text: string): (n: nat)
    ensures n <= |text| && (text != "" ==> n > 0)
  {
    var n := Find(text, IsBreak);
    if n == |text| then n
    else if text[n] == '\r' && n + 1 < |text| && text[n + 1] == '\n' then n + 2
    else n + 1
  }

  /** str.splitlines with the terminators kept. */
  function SplitLines(text: string): seq<string> {
    if text == "" then [] else [text[..LineEnd(text)]] + SplitLines(text[LineEnd(text)..])
  }

  function Join(lines: seq<string>): string {
    if lines == [] then "" else lines[0] + Join(lines[1..])
  }

  function RewriteAll(rules: seq<Rename>, lines: seq<string>): (r: seq<string>)
    ensures |r| == |lines| && forall k | 0 <= k < |lines| :: r[k] == Rewrite(rules, lines[k])
  {
    seq(|lines|, k requires 0 <= k < |lines| => Rewrite(rules, lines[k]))
  }

  function Migrated(rules: seq<Rename>, text: string): string {
    Join(RewriteAll(rules, SplitLines(text)))
  }

  /** Both empty, or with the same first character. */
  predicate SameFront(s: string, t: string) {
    (s == "" <==> t == "") && (s != "" && t != "" ==> s[0] == t[0])
  }

  /** What follows a line matters to its end only by its first character. */
  lemma LineEndFront(line: string, s: string, t: string)
    requires LineEnd(line + s) == |line| && SameFront(s, t)
    ensures LineEnd(line + t) == |line|
  {
    var n, m := Find(line + s, IsBreak), Find(line + t, IsBreak);
    if n < |line| {
      assert (line + s)[n] == line[n] == (line + t)[n];
      assert forall k | 0 <= k < n :: (line + t)[k] == line[k] == (line + s)[k];
      assert m == n;
      assert n + 1 < |line + s| ==> n + 1 < |line + t| && (line + s)[n + 1] == (line + t)[n + 1];
    } else {
      assert s == "" && t == "";
    }
  }

  lemma LineEndSkips(key: string, rest: string)
    requires IsKey(key)
    ensures LineEnd(key + rest) == |key| + LineEnd(rest)
  {
    FindSkips(key, rest, IsBreak);
  }

  lemma RewriteFront(rules: seq<Rename>, line: string)
    requires Normalizing(rules) && RenameKeys(rules)
    ensures SameFront(line, Rewrite(rules, line))
  {
    var hit := RewriteFirst(rules, 0, line);
  }

  lemma SwapKeyEnds(old0: string, new0: string, rest: string, s: string, t: string)
    requires IsKey(old0) && IsKey(new0)
    requires LineEnd((old0 + rest) + s) == |old0 + rest| && SameFront(s, t)
    ensures LineEnd((new0 + rest) + t) == |new0 + rest|
  {
    assert (old0 + rest) + s == old0 + (rest + s);
    LineEndSkips(old0, rest + s);
    LineEndFront(rest, s, t);
    LineEndSkips(new0, rest + t);
    assert (new0 + rest) + t == new0 + (rest + t);
  }

  /** A rewritten line still ends where it did, whatever the following lines have become. */
  lemma RewriteEnds(rules: seq<Rename>, line: string, s: string, t: string)
    requires Normalizing(rules) && RenameKeys(rules)
    requires LineEnd(line + s) == |line| && SameFront(s, t)
    ensures LineEnd(Rewrite(rules, line) + t) == |Rewrite(rules, line)|
  {
    var hit := RewriteFirst(rules, 0, line);
    if hit == |rules| {
      LineEndFront(line, s, t);
    } else {
      var r := rules[hit];
      assert line == r.stem + line[|r.stem|..];
      SwapKeyEnds(r.stem, r.target, line[|r.stem|..], s, t);
    }
  }

  lemma SplitFirst(line: string, rest: string)
    requires line != "" && LineEnd(line + rest) == |line|
    ensures SplitLines(line + rest) == [line] + SplitLines(rest)
  {
    assert (line + rest)[..|line|] == line && (line + rest)[|line|..] == rest;
  }

  lemma RewriteAllCons(rules: seq<Rename>, line: string, lines: seq<string>)
    ensures RewriteAll(rules, [line] + lines) == [Rewrite(rules, line)] + RewriteAll(rules, lines)
  {
  }

  lemma JoinCons(line: string, lines: seq<string>)
    ensures Join([line] + lines) == line + Join(lines)
  {
    assert ([line] + lines)[1..] == lines;
  }

  lemma FrontConcat(a: string, b: string, s: string, t: string)
    requires a != "" && SameFront(a, b)
    ensures SameFront(a + s, b + t)
  {
  }

  lemma RewriteStep(rules: seq<Rename>, line: string, s: string, t: string)
    requires Normalizing(rules) && RenameKeys(rules)
    requires line != "" && LineEnd(line + s) == |line| && SameFront(s, t)
    ensures SplitLines(Rewrite(rules, line) + t) == [Rewrite(rules, line)] + SplitLines(t)
    ensures SameFront(line + s, Rewrite(rules, line) + t)
  {
    RewriteFront(rules, line);
    RewriteEnds(rules, line, s, t);
    SplitFirst(Rewrite(rules, line), t);
    FrontConcat(line, Rewrite(rules, line), s, t);
  }

  lemma MigratedCons(rules: seq<Rename>, line: string, tail: string)
    requires line != "" && LineEnd(line + tail) == |line|
    ensures Migrated(rules, line + tail) == Rewrite(rules, line) + Migrated(rules, tail)
    ensures RewriteAll(rules, SplitLines(line + tail)) ==
            [Rewrite(rules, line)] + RewriteAll(rules, SplitLines(tail))
  {
    SplitFirst(line, tail);
    var lines := SplitLines(tail);
    RewriteAllCons(rules, line, lines);
    JoinCons(Rewrite(rules, line), RewriteAll(rules, lines));
  }

  /** Splitting loses nothing. */
  lemma {:induction false} JoinSplit(text: string)
    ensures Join(SplitLines(text)) == text
    decreases |text|
  {
    if text != "" {
      var line, tail := text[..LineEnd(text)], text[LineEnd(text)..];
      JoinSplit(tail);
      JoinCons(line, SplitLines(tail));
      assert line + tail == text;
    }
  }

  /**
   A complete line in front of `rest`: no break but its terminator, which is missing only at the
   very end and is one break character or CR LF; a CR does not leave its LF to the next line.
   */
  ghost predicate LineThen(line: string, rest: string) {
    var n := Find(line, IsBreak);
    && line != ""
    && (|| (n == |line| && rest == "")
        || (n == |line| - 1 && !(line[n] == '\r' && rest != "" && rest[0] == '\n'))
        || (n == |line| - 2 && line[n] == '\r' && line[n + 1] == '\n'))
  }

  lemma LineThenIff(line: string, rest: string)
    requires line != ""
    ensures LineThen(line, rest) <==> LineEnd(line + rest) == |line|
  {
    var n, m := Find(line, IsBreak), Find(line + rest, IsBreak);
    assert forall k | 0 <= k < |line| :: (line + rest)[k] == line[k];
    if n < |line| {
      assert m == n;
    } else {
      FindSkips(line, rest, IsBreak);
      assert rest != "" ==> (line + rest)[|line|] == rest[0];
    }
  }

  ghost predicate WellSplit(lines: seq<string>) {
    lines == [] || (LineThen(lines[0], Join(lines[1..])) && WellSplit(lines[1..]))
  }

  /** The lines of a text are the only complete lines that join to it. */
  lemma {:induction false} SplitLinesIff(text: string, lines: seq<string>)
    ensures SplitLines(text) == lines <==> WellSplit(lines) && Join(lines) == text
    decreases |text| + |lines|
  {
    if lines == [] {
      assert text != "" ==> SplitLines(text) != [];
    } else if text == "" {
      assert WellSplit(lines) ==> lines[0] != "";
    } else {
      var n := LineEnd(text);
      var line, tail := text[..n], text[n..];
      assert text == line + tail && SplitLines(text) == [line] + SplitLines(tail);
      SplitLinesIff(tail, lines[1..]);
      if SplitLines(text) == lines {
        assert lines[0] == line && lines[1..] == SplitLines(tail);
        LineThenIff(line, tail);
      }
      if WellSplit(lines) && Join(lines) == text {
        LineThenIff(lines[0], Join(lines[1..]));
        assert |lines[0]| == n && lines[0] == line && Join(lines[1..]) == tail;
        assert lines == [lines[0]] + lines[1..];
      }
    }
  }

  /** The output splits into exactly the rewritten lines. */
  lemma {:induction false} MigratedLines(rules: seq<Rename>, text: string)
    requires Normalizing(rules) && RenameKeys(rules)
    ensures SplitLines(Migrated(rules, text)) == RewriteAll(rules, SplitLines(text))
    ensures SameFront(text, Migrated(rules, text))
    decreases |text|
  {
    if text != "" {
      var line, tail := text[..LineEnd(text)], text[LineEnd(text)..];
      MigratedLines(rules, tail);
      assert line + tail == text;
      MigratedCons(rules, line, tail);
      RewriteStep(rules, line, tail, Migrated(rules, tail));
    }
  }

  // ---------------------------------------------------------------------------
  // The migration
  // ---------------------------------------------------------------------------

  /** At how many positions two lists of lines differ. */
  function Altered(a: seq<string>, b: seq<string>): nat
    requires |a| == |b|
  {
    if a == [] then 0
    else Altered(a[..|a| - 1], b[..|b| - 1]) + if a[|a| - 1] == b[|b| - 1] then 0 else 1
  }

  lemma {:induction false} AlteredNone(a: seq<string>)
    ensures Altered(a, a) == 0
  {
    if a != [] {
      AlteredNone(a[..|a| - 1]);
    }
  }

  method RewriteLine(rules: seq<Rename>, original: string) returns (line: string)
    ensures line == Rewrite(rules, original)
  {
    line := original;
    for i := 0 to |rules|
      invariant line == original && RewriteFrom(rules, i, original) == Rewrite(rules, original)
    {
      var newLine := Substitute(rules[i], line);
      if newLine != line {
        return newLine;
      }
    }
  }

  method Migrate(rules: seq<Rename>, text: string) returns (out: string, changes: nat)
    ensures out == Migrated(rules, text)
    ensures changes == Altered(SplitLines(text), RewriteAll(rules, SplitLines(text)))
  {
    var lines := SplitLines(text);
    var outLines := [];
    changes := 0;
    for n := 0 to |lines|
      invariant outLines == RewriteAll(rules, lines)[..n]
      invariant changes == Altered(lines[..n], outLines)
    {
      var line := RewriteLine(rules, lines[n]);
      if line != lines[n] {
        changes := changes + 1;
      }
      assert lines[..n + 1][..n] == lines[..n];
      outLines := outLines + [line];
    }
    assert lines[..|lines|] == lines && outLines == RewriteAll(rules, lines);
    out := Join(outLines);
  }

  /** A line of the output against the line of the input it comes from. */
  ghost predicate KeptLine(before: string, after: string) {
    Value(after) == Value(before) && Terminator(after) == Terminator(before)
  }

  /**
   The migration is a one-pass normal form: a second pass changes nothing. The number of
   lines, and the value and terminator of each, are kept.
   */
  lemma MigrationIsNormal(rules: seq<Rename>, text: string)
    requires Normalizing(rules) && RenameKeys(rules)
    ensures var before, after := SplitLines(text), SplitLines(Migrated(rules, text));
            |after| == |before| && forall k | 0 <= k < |before| :: KeptLine(before[k], after[k])
    ensures Migrated(rules, Migrated(rules, text)) == Migrated(rules, text)
    ensures var lines := SplitLines(Migrated(rules, text)); Altered(lines, RewriteAll(rules, lines)) == 0
  {
    var before, after := SplitLines(text), SplitLines(Migrated(rules, text));
    MigratedLines(rules, text);
    forall k | 0 <= k < |before| ensures KeptLine(before[k], after[k]) && Rewrite(rules, after[k]) == after[k] {
      RewriteKeeps(rules, before[k]);
      RewriteTwice(rules, before[k]);
    }
    assert RewriteAll(rules, after) == after;
    AlteredNone(after);
  }
}
