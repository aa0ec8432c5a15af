/**
 Text as the tools see it: Python's universal-newline reading, UTF-8 sizes, `str.count`,
 `str.replace(_, _, 1)`, and the order in which `sorted` lists strings.
 */
module Texts {
  import opened Basics

  type Text = string
  type Path = string

  function SkipLineFeed(s: Text): Text {
    if s != "" && s[0] == '\n' then s[1..] else s
  }

  /** What `read_text` returns for a file into which `s` was written with its line endings left alone. */
  function AsRead(s: Text): (t: Text)
    ensures '\r' !in t
    decreases |s|
  {
    if s == "" then ""
    else if s[0] == '\r' then "\n" + AsRead(SkipLineFeed(s[1..]))
    else [s[0]] + AsRead(s[1..])
  }

  lemma ReadCons(c: char, s: Text)
    ensures AsRead([c] + s) == if c == '\r' then "\n" + AsRead(SkipLineFeed(s)) else [c] + AsRead(s)
  {
  }

  /** Reading changes nothing in a text without carriage returns, and nothing else is left alone. */
  lemma {:induction false} ReadsBackItself(s: Text)
    ensures AsRead(s) == s <==> '\r' !in s
  {
    if s != "" && '\r' !in s {
      ReadsBackItself(s[1..]);
      assert s == [s[0]] + s[1..];
    }
  }

  /** A replacement that ends in a carriage return just before a line feed loses it on reading. */
  function Spliced(r: Text, after: Text): Text {
    if r != "" && r[|r| - 1] == '\r' && after != "" && after[0] == '\n' then r[..|r| - 1] else r
  }

  lemma Regroup(c: char, a: Text, b: Text)
    ensures [c] + (a + b) == ([c] + a) + b
  {
  }

  lemma {:induction false} ReadingKeepsThePrefix(before: Text, s: Text)
    requires '\r' !in before
    ensures AsRead(before + s) == before + AsRead(s)
  {
    if before == "" {
      assert before + s == s;
    } else {
      var c, rest := before[0], before[1..];
      ReadingKeepsThePrefix(rest, s);
      ReadCons(c, rest + s);
      Regroup(c, rest, s);
      Regroup(c, rest, AsRead(s));
      assert before == [c] + rest;
    }
  }

  lemma SplicedCons(c: char, r: Text, after: Text)
    requires r != ""
    ensures Spliced([c] + r, after) == [c] + Spliced(r, after)
  {
  }

  lemma ReturnThenSuffix(after: Text)
    requires '\r' !in after
    ensures AsRead("\r" + after) == AsRead(Spliced("\r", after)) + after
  {
    ReadCons('\r', after);
    ReadsBackItself(SkipLineFeed(after));
    if after != "" && after[0] == '\n' {
      assert after == "\n" + after[1..];
    } else {
      ReadCons('\r', "");
      assert "\r" + "" == "\r";
    }
  }

  /** Skipping a line feed commutes with splicing. */
  lemma SkippedThenSpliced(t: Text, after: Text)
    requires t != ""
    ensures SkipLineFeed(t + after) == SkipLineFeed(t) + after
    ensures SkipLineFeed(t) != "" ==> SkipLineFeed(Spliced(t, after)) == Spliced(SkipLineFeed(t), after)
    ensures SkipLineFeed(t) == "" ==> SkipLineFeed(Spliced(t, after)) == ""
  {
  }

  lemma {:induction false} ReadingKeepsTheSuffix(r: Text, after: Text)
    requires '\r' !in after
    ensures AsRead(r + after) == AsRead(Spliced(r, after)) + after
    decreases |r|
  {
    if r == "" {
      assert r + after == after;
      ReadsBackItself(after);
    } else if r == "\r" {
      ReturnThenSuffix(after);
    } else if |r| == 1 {
      ReadCons(r[0], after);
      ReadsBackItself(after);
      ReadCons(r[0], "");
      assert [r[0]] + "" == r;
    } else {
      var c, t := r[0], r[1..];
      assert r == [c] + t && r + after == [c] + (t + after);
      SplicedCons(c, t, after);
      if c != '\r' {
        ReadingKeepsTheSuffix(t, after);
        CarriedOver([c], t + after, Spliced(t, after), after);
        ReadCons(c, t + after);
        ReadCons(c, Spliced(t, after));
      } else {
        SkippedThenSpliced(t, after);
        ReadingKeepsTheSuffix(SkipLineFeed(t), after);
        ReadCons(c, t + after);
        ReadCons(c, Spliced(t, after));
        CarriedOver("\n", SkipLineFeed(t + after), SkipLineFeed(Spliced(t, after)), after);
      }
    }
  }

  lemma CarriedOver(head: Text, whole: Text, part: Text, after: Text)
    requires AsRead(whole) == AsRead(part) + after
    ensures head + AsRead(whole) == (head + AsRead(part)) + after
  {
  }

  lemma ReadsAfter(before: Text, ending: Text, after: Text, read: Text)
    requires '\r' !in before && AsRead(ending + after) == "\n" + read
    ensures AsRead(before + ending + after) == before + "\n" + read
  {
    assert before + ending + after == before + (ending + after);
    ReadingKeepsThePrefix(before, ending + after);
    assert before + ("\n" + read) == before + "\n" + read;
  }

  lemma EndingsRead(after: Text)
    ensures AsRead("\n" + after) == "\n" + AsRead(after)
    ensures AsRead("\r\n" + after) == "\n" + AsRead(after)
    ensures after == "" || after[0] != '\n' ==> AsRead("\r" + after) == "\n" + AsRead(after)
  {
    ReadCons('\n', after);
    ReadCons('\r', after);
    assert "\r\n" + after == "\r" + ("\n" + after);
    ReadCons('\r', "\n" + after);
    assert ("\n" + after)[1..] == after;
  }

  /** Each of the three line endings reads as one newline, and what follows it is read on its own. */
  lemma LineEndingsRead(before: Text, after: Text)
    requires '\r' !in before
    ensures AsRead(before + "\n" + after) == before + "\n" + AsRead(after)
    ensures AsRead(before + "\r\n" + after) == before + "\n" + AsRead(after)
    ensures after == "" || after[0] != '\n' ==> AsRead(before + "\r" + after) == before + "\n" + AsRead(after)
  {
    EndingsRead(after);
    ReadsAfter(before, "\n", after, AsRead(after));
    ReadsAfter(before, "\r\n", after, AsRead(after));
    if after == "" || after[0] != '\n' {
      ReadsAfter(before, "\r", after, AsRead(after));
    }
  }

  function CharSize(c: char): nat {
    var n := c as int;
    if n < 0x80 then 1 else if n < 0x800 then 2 else if n < 0x1_0000 then 3 else 4
  }

  /** The length of a text in UTF-8. */
  function Utf8Size(s: Text): (n: nat)
    ensures |s| <= n <= 4 * |s|
  {
    if s == "" then 0 else CharSize(s[0]) + Utf8Size(s[1..])
  }

  /** How many characters have at least a code. */
  function AtLeast(s: Text, code: nat): nat {
    if s == "" then 0 else (if s[0] as int >= code then 1 else 0) + AtLeast(s[1..], code)
  }

  /** One byte for every character, and one more for passing each of three bounds. */
  lemma {:induction false} SizeByBounds(s: Text)
    ensures Utf8Size(s) == |s| + AtLeast(s, 0x80) + AtLeast(s, 0x800) + AtLeast(s, 0x1_0000)
  {
    if s != "" {
      SizeByBounds(s[1..]);
    }
  }

  // ------------------------------------------------------------------ lines and white space

  /** The lines of a text, split at each newline. */
  function Lines(text: string): (lines: seq<string>)
    ensures |lines| >= 1
  {
    if text == "" then [""]
    else
      var rest := Lines(text[1..]);
      if text[0] == '\n' then [""] + rest else [[text[0]] + rest[0]] + rest[1..]
  }

  /** Lines joined by newlines. */
  function Join(lines: seq<string>): string {
    if lines == [] then "" else if |lines| == 1 then lines[0] else lines[0] + "\n" + Join(lines[1..])
  }

  /** `str.isspace` of one character, the characters `strip` removes. */
  predicate IsSpace(c: char) {
    var n := c as int;
    || 0x09 <= n <= 0x0d || 0x1c <= n <= 0x20 || n == 0x85 || n == 0xa0 || n == 0x1680
    || 0x2000 <= n <= 0x200a || n == 0x2028 || n == 0x2029 || n == 0x202f || n == 0x205f || n == 0x3000
  }

  /** Among the ASCII characters: tab to carriage return, the four separators, and the space. */
  lemma AsciiSpaces(c: char)
    requires c as int < 0x80
    ensures IsSpace(c) <==> c in "\t\n\r " || c as int in {0x0b, 0x0c, 0x1c, 0x1d, 0x1e, 0x1f}
  {
  }

  /** Nothing is left of the text after stripping. */
  predicate Blank(s: string) {
    forall i :: 0 <= i < |s| ==> IsSpace(s[i])
  }

  predicate AllBlank(lines: seq<string>) {
    forall i :: 0 <= i < |lines| ==> Blank(lines[i])
  }

  lemma BlankCons(c: char, s: string)
    ensures Blank([c] + s) <==> IsSpace(c) && Blank(s)
  {
    var t := [c] + s;
    assert t[0] == c;
    assert forall i :: 0 <= i < |s| ==> t[i + 1] == s[i];
  }

  lemma AllBlankCons(line: string, rest: seq<string>)
    ensures AllBlank([line] + rest) <==> Blank(line) && AllBlank(rest)
  {
    var t := [line] + rest;
    assert t[0] == line;
    assert forall i :: 0 <= i < |rest| ==> t[i + 1] == rest[i];
  }

  /** A text is blank exactly when all its lines are. */
  lemma {:induction false} BlankByLines(s: string)
    ensures Blank(s) <==> AllBlank(Lines(s))
  {
    if s != "" {
      var rest := Lines(s[1..]);
      BlankByLines(s[1..]);
      assert s == [s[0]] + s[1..];
      BlankCons(s[0], s[1..]);
      if s[0] == '\n' {
        AllBlankCons("", rest);
      } else {
        assert rest == [rest[0]] + rest[1..];
        AllBlankCons(rest[0], rest[1..]);
        AllBlankCons([s[0]] + rest[0], rest[1..]);
        BlankCons(s[0], rest[0]);
      }
    }
  }

  /** Splitting at the newlines and joining again gives the text back, and no line holds a newline. */
  lemma {:induction false} LinesJoinBack(s: string)
    ensures Join(Lines(s)) == s
    ensures forall i :: 0 <= i < |Lines(s)| ==> '\n' !in Lines(s)[i]
  {
    if s != "" {
      LinesJoinBack(s[1..]);
      var rest := Lines(s[1..]);
      assert s == [s[0]] + s[1..];
      if s[0] == '\n' {
        assert Lines(s)[1..] == rest;
      } else {
        assert Lines(s)[1..] == rest[1..];
      }
    }
  }

  // ------------------------------------------------------------------ str.count and str.replace

  predicate OccursAt(s: Text, find: Text, i: nat) {
    i + |find| <= |s| && s[i..i + |find|] == find
  }

  lemma OccursLater(s: Text, find: Text, i: nat)
    requires s != "" && i > 0
    ensures OccursAt(s, find, i) <==> OccursAt(s[1..], find, i - 1)
  {
  }

  /** Occurrences counted from the left, not overlapping. */
  function Count(s: Text, find: Text): nat
    requires find != ""
    decreases |s|
  {
    if s == "" then 0
    else if OccursAt(s, find, 0) then 1 + Count(s[|find|..], find)
    else Count(s[1..], find)
  }

  /** Two occurrences that do not overlap. */
  ghost predicate OccursTwice(s: Text, find: Text) {
    exists i: nat, j: nat :: i + |find| <= j && OccursAt(s, find, i) && OccursAt(s, find, j)
  }

  lemma {:induction false} CountedIfLater(s: Text, find: Text, i: nat)
    requires find != "" && OccursAt(s, find, i)
    ensures Count(s, find) >= 1
    decreases |s|
  {
    if !OccursAt(s, find, 0) {
      OccursLater(s, find, i);
      CountedIfLater(s[1..], find, i - 1);
    }
  }

  lemma OccursBeyond(s: Text, find: Text, from: nat, i: nat)
    requires from <= |s| && from <= i
    ensures OccursAt(s, find, i) <==> OccursAt(s[from..], find, i - from)
  {
    if i + |find| <= |s| {
      assert s[from..][i - from..i - from + |find|] == s[i..i + |find|];
    }
  }

  lemma {:induction false} CountedOnceMore(s: Text, find: Text)
    requires find != "" && Count(s, find) >= 1
    ensures exists i: nat :: OccursAt(s, find, i)
    decreases |s|
  {
    if !OccursAt(s, find, 0) {
      CountedOnceMore(s[1..], find);
      var i: nat :| OccursAt(s[1..], find, i);
      OccursLater(s, find, i + 1);
    }
  }

  /** The count is above one exactly when two occurrences do not overlap. */
  lemma {:induction false} CountedTwice(s: Text, find: Text)
    requires find != ""
    ensures Count(s, find) > 1 <==> OccursTwice(s, find)
    decreases |s|
  {
    if s != "" {
      if OccursAt(s, find, 0) {
        if OccursTwice(s, find) {
          var i: nat, j: nat :| i + |find| <= j && OccursAt(s, find, i) && OccursAt(s, find, j);
          OccursBeyond(s, find, |find|, j);
          CountedIfLater(s[|find|..], find, j - |find|);
        }
        if Count(s, find) > 1 {
          CountedOnceMore(s[|find|..], find);
          var j: nat :| OccursAt(s[|find|..], find, j);
          OccursBeyond(s, find, |find|, |find| + j);
        }
      } else {
        CountedTwice(s[1..], find);
        TwiceLater(s, find);
      }
    }
  }

  lemma TwiceLater(s: Text, find: Text)
    requires find != "" && s != "" && !OccursAt(s, find, 0)
    ensures OccursTwice(s, find) <==> OccursTwice(s[1..], find)
  {
    if OccursTwice(s, find) {
      var i: nat, j: nat :| i + |find| <= j && OccursAt(s, find, i) && OccursAt(s, find, j);
      OccursLater(s, find, i);
      OccursLater(s, find, j);
    }
    if OccursTwice(s[1..], find) {
      var i: nat, j: nat :| i + |find| <= j && OccursAt(s[1..], find, i) && OccursAt(s[1..], find, j);
      OccursLater(s, find, i + 1);
      OccursLater(s, find, j + 1);
    }
  }

  /** Where the searched text first occurs. */
  function FirstIndex(s: Text, find: Text): (r: Option<nat>)
    requires find != ""
    ensures r.Some? ==> OccursAt(s, find, r.value)
    ensures r.Some? ==> forall i: nat :: i < r.value ==> !OccursAt(s, find, i)
    ensures r.None? ==> forall i: nat :: !OccursAt(s, find, i)
  {
    if s == "" then None
    else if OccursAt(s, find, 0) then Some(0)
    else
      var rest := FirstIndex(s[1..], find);
      assert forall i: nat :: i > 0 ==> (OccursAt(s, find, i) <==> OccursAt(s[1..], find, i - 1)) by {
        forall i: nat | i > 0 ensures OccursAt(s, find, i) <==> OccursAt(s[1..], find, i - 1) {
          OccursLater(s, find, i);
        }
      }
      if rest.None? then None else Some(rest.value + 1)
  }

  /** The count is zero exactly when the text occurs nowhere. */
  lemma {:induction false} CountedIffPresent(s: Text, find: Text)
    requires find != ""
    ensures Count(s, find) > 0 <==> FirstIndex(s, find).Some?
    decreases |s|
  {
    if s != "" && !OccursAt(s, find, 0) {
      CountedIffPresent(s[1..], find);
    }
  }

  /** The text with the first occurrence replaced. */
  function ReplaceFirst(s: Text, find: Text, replacement: Text): Text
    requires find != ""
  {
    match FirstIndex(s, find)
    case None => s
    case Some(i) => s[..i] + replacement + s[i + |find|..]
  }

  // ------------------------------------------------------------------ the order of sorted()

  /** Code-point order, shorter first. */
  predicate Before(a: string, b: string) {
    if b == "" then false
    else if a == "" then true
    else a[0] < b[0] || (a[0] == b[0] && Before(a[1..], b[1..]))
  }

  lemma {:induction false} BeforeIsTotal(a: string, b: string)
    ensures Before(a, b) || a == b || Before(b, a)
    ensures !(Before(a, b) && Before(b, a)) && !(a == b && Before(a, b))
  {
    if a != "" && b != "" {
      BeforeIsTotal(a[1..], b[1..]);
      if a[0] == b[0] && a[1..] == b[1..] {
        assert a == [a[0]] + a[1..] == b;
      }
    }
  }

  lemma {:induction false} BeforeIsTransitive(a: string, b: string, c: string)
    requires Before(a, b) && Before(b, c)
    ensures Before(a, c)
  {
    if a != "" && a[0] == b[0] == c[0] {
      BeforeIsTransitive(a[1..], b[1..], c[1..]);
    }
  }

  /** Up to some place the strings agree; there one of them ends, or has the smaller character. */
  predicate DiffersAt(a: string, b: string, k: nat) {
    && k <= |a| && k < |b| && a[..k] == b[..k]
    && (k == |a| || a[k] < b[k])
  }

  /** It is the order of the first difference. */
  lemma {:induction false} BeforeByFirstDifference(a: string, b: string)
    ensures Before(a, b) <==> exists k: nat :: DiffersAt(a, b, k)
  {
    if b == "" {
    } else if a == "" || a[0] < b[0] {
      assert DiffersAt(a, b, 0);
    } else if a[0] == b[0] {
      BeforeByFirstDifference(a[1..], b[1..]);
      if Before(a, b) {
        var k: nat :| DiffersAt(a[1..], b[1..], k);
        assert a[..k + 1] == [a[0]] + a[1..][..k] && b[..k + 1] == [b[0]] + b[1..][..k];
        assert DiffersAt(a, b, k + 1);
      }
      if k: nat :| DiffersAt(a, b, k) {
        assert a[1..][..k - 1] == a[..k][1..] && b[1..][..k - 1] == b[..k][1..];
        assert DiffersAt(a[1..], b[1..], k - 1);
      }
    }
  }

  /** The first of a set of strings. */
  method First(names: set<string>) returns (least: string)
    requires names != {}
    ensures least in names
    ensures forall n :: n in names && n != least ==> Before(least, n)
  {
    least :| least in names;
    var todo := names - {least};
    while todo != {}
      invariant todo <= names && least in names && least !in todo
      invariant forall n :: n in names && n !in todo && n != least ==> Before(least, n)
      decreases |todo|
    {
      var n :| n in todo;
      todo := todo - {n};
      BeforeIsTotal(n, least);
      if Before(n, least) {
        forall m | m in names && m !in todo && m != n ensures Before(n, m) {
          if m != least {
            BeforeIsTransitive(n, least, m);
          }
        }
        least := n;
      }
    }
  }

  /** The names in code-point order. */
  method Sorted(names: set<string>) returns (list: seq<string>)
    ensures forall i, j :: 0 <= i < j < |list| ==> Before(list[i], list[j])
    ensures forall n :: n in list <==> n in names
  {
    list := [];
    var todo := names;
    while todo != {}
      invariant todo <= names
      invariant forall n :: n in list <==> n in names && n !in todo
      invariant forall i, j :: 0 <= i < j < |list| ==> Before(list[i], list[j])
      invariant forall i, n :: 0 <= i < |list| && n in todo ==> Before(list[i], n)
      decreases |todo|
    {
      var n := First(todo);
      todo := todo - {n};
      list := list + [n];
    }
  }
}
