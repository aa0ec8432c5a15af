/**
 The blocking verdict of backend/app/agent/risk.py. The regular expressions are an arbitrary
 matcher; which text they are run on is the source's.
 */
module Risk {
  import opened Texts

  /** `search(i, text)`: does the i-th credential pattern match somewhere in `text`? */
  type Matcher = (nat, string) -> bool

  datatype Label = GitHubToken | FineGrainedToken | GoogleApiKey | ProviderApiKey | PrivateKey | DatabaseUrl

  /** What each credential pattern is reported as; two of them are Google keys. */
  const PATTERN_LABELS: seq<Label> :=
    [GitHubToken, FineGrainedToken, GoogleApiKey, GoogleApiKey, ProviderApiKey, PrivateKey, DatabaseUrl]

  function StartsWith(line: string, prefix: string): bool {
    prefix <= line
  }

  predicate IsAddedLine(line: string) {
    StartsWith(line, "+") && !StartsWith(line, "+++")
  }

  /** The added lines without their marker, joined by newlines. */
  function AddedText(lines: seq<string>): string {
    if lines == [] then ""
    else
      var rest := AddedText(lines[1..]);
      if !IsAddedLine(lines[0]) then rest
      else if exists i :: 1 <= i < |lines| && IsAddedLine(lines[i]) then lines[0][1..] + "\n" + rest
      else lines[0][1..]
  }

  /** The labels of the patterns that match somewhere in the added lines. */
  function ScanForSecrets(search: Matcher, diffText: string): set<Label> {
    set i | 0 <= i < |PATTERN_LABELS| && search(i, AddedText(Lines(diffText))) :: PATTERN_LABELS[i]
  }

  /** The blocking flag of `assess`: the only condition that blocks a change outright. */
  predicate Blocking(search: Matcher, diffText: string) {
    ScanForSecrets(search, diffText) != {}
  }

  // ------------------------------------------------------------------ which text is scanned

  /** A line that adds text, told by its first characters: one plus sign, or two, but not three. */
  predicate AddsText(line: string) {
    |line| >= 1 && line[0] == '+' && !(|line| >= 3 && line[1] == '+' && line[2] == '+')
  }

  lemma AddedByItsMarker(line: string)
    ensures IsAddedLine(line) <==> AddsText(line)
  {
    if line != "" && line[0] == '+' {
      assert "+" <= line;
    }
    if |line| >= 3 && line[..3] == "+++" {
      assert line[0] == '+' && line[1] == '+' && line[2] == '+';
    }
    if |line| >= 3 && line[0] == '+' && line[1] == '+' && line[2] == '+' {
      assert line[..3] == "+++";
    }
  }

  /** The places of the lines that add text, in order, from place `i` on. */
  function PlacesFrom(lines: seq<string>, i: nat): (places: seq<nat>)
    requires i <= |lines|
    ensures forall k :: 0 <= k < |places| ==>
              i <= places[k] < |lines| && lines[places[k]] != "" && AddsText(lines[places[k]])
    ensures forall j, k :: 0 <= j < k < |places| ==> places[j] < places[k]
    ensures forall n: nat :: i <= n < |lines| && AddsText(lines[n]) ==> n in places
    decreases |lines| - i
  {
    if i == |lines| then []
    else if AddsText(lines[i]) then [i] + PlacesFrom(lines, i + 1)
    else PlacesFrom(lines, i + 1)
  }

  /** What stands after the marker on the lines at some places. */
  function Rests(lines: seq<string>, places: seq<nat>): (r: seq<string>)
    requires forall k :: 0 <= k < |places| ==> places[k] < |lines| && lines[places[k]] != ""
    ensures |r| == |places| && forall k :: 0 <= k < |r| ==> r[k] == lines[places[k]][1..]
  {
    seq(|places|, k requires 0 <= k < |places| => lines[places[k]][1..])
  }

  lemma MoreAreAdded(lines: seq<string>, i: nat)
    requires i < |lines|
    ensures (exists n :: 1 <= n < |lines[i..]| && IsAddedLine(lines[i..][n])) <==> PlacesFrom(lines, i + 1) != []
  {
    var later := PlacesFrom(lines, i + 1);
    if n :| 1 <= n < |lines[i..]| && IsAddedLine(lines[i..][n]) {
      AddedByItsMarker(lines[i..][n]);
      assert lines[i + n] == lines[i..][n];
      assert i + n in later;
    }
    if later != [] {
      AddedByItsMarker(lines[later[0]]);
      assert lines[i..][later[0] - i] == lines[later[0]];
    }
  }

  lemma ScansOneMore(lines: seq<string>, i: nat)
    requires i < |lines|
    ensures AddedText(lines[i..]) ==
            var rest := AddedText(lines[i + 1..]);
            if !AddsText(lines[i]) then rest
            else if PlacesFrom(lines, i + 1) == [] then lines[i][1..] else lines[i][1..] + "\n" + rest
  {
    AddedByItsMarker(lines[i]);
    MoreAreAdded(lines, i);
    assert lines[i..][1..] == lines[i + 1..] && lines[i..][0] == lines[i];
  }

  lemma {:induction false} ScannedFrom(lines: seq<string>, i: nat)
    requires i <= |lines|
    ensures AddedText(lines[i..]) == Join(Rests(lines, PlacesFrom(lines, i)))
    decreases |lines| - i
  {
    if i < |lines| {
      ScannedFrom(lines, i + 1);
      ScansOneMore(lines, i);
      var later := PlacesFrom(lines, i + 1);
      if AddsText(lines[i]) {
        JoinsOneMore(lines[i][1..], Rests(lines, later));
        RestsCons(lines, i, later);
      }
    }
  }

  lemma RestsCons(lines: seq<string>, i: nat, later: seq<nat>)
    requires i < |lines| && lines[i] != ""
    requires forall k :: 0 <= k < |later| ==> later[k] < |lines| && lines[later[k]] != ""
    ensures Rests(lines, [i] + later) == [lines[i][1..]] + Rests(lines, later)
  {
  }

  lemma JoinsOneMore(first: string, rest: seq<string>)
    ensures Join([first] + rest) == if rest == [] then first else first + "\n" + Join(rest)
  {
    assert ([first] + rest)[1..] == rest;
  }

  /**
   The scanned text of any list of lines: what stands after the marker on exactly the lines that add
   text, in their order, joined by newlines.
   */
  lemma ScannedText(lines: seq<string>) returns (places: seq<nat>)
    ensures forall k :: 0 <= k < |places| ==>
              places[k] < |lines| && lines[places[k]] != "" && AddsText(lines[places[k]])
    ensures forall j, k :: 0 <= j < k < |places| ==> places[j] < places[k]
    ensures forall n: nat :: n < |lines| && AddsText(lines[n]) ==> n in places
    ensures AddedText(lines) == Join(Rests(lines, places))
  {
    places := PlacesFrom(lines, 0);
    ScannedFrom(lines, 0);
    assert lines[0..] == lines;
  }

  // ------------------------------------------------------------------ what blocks

  ghost predicate Contains(text: string, part: string) {
    exists i: nat :: OccursAt(text, part, i)
  }

  /** A pattern that looks at nothing around its match: where it matches a part, it matches the whole. */
  ghost predicate Local(search: Matcher) {
    forall n: nat, part: string, text: string :: search(n, part) && Contains(text, part) ==> search(n, text)
  }

  lemma {:induction false} JoinContains(lines: seq<string>, k: nat)
    requires k < |lines|
    ensures Contains(Join(lines), lines[k])
  {
    if |lines| == 1 {
      assert OccursAt(lines[0], lines[0], 0);
    } else if k == 0 {
      assert OccursAt(Join(lines), lines[0], 0);
    } else {
      JoinContains(lines[1..], k - 1);
      var i: nat :| OccursAt(Join(lines[1..]), lines[k], i);
      var head := lines[0] + "\n";
      assert Join(lines) == head + Join(lines[1..]);
      assert OccursAt(Join(lines), lines[k], |head| + i);
    }
  }

  /** One of the seven patterns matches. */
  predicate Matched(search: Matcher, text: string) {
    exists n: nat :: n < 7 && search(n, text)
  }

  /** The seven patterns, each on the whole scanned text. */
  lemma BlockingIsAMatch(search: Matcher, diffText: string)
    ensures Blocking(search, diffText) <==> Matched(search, AddedText(Lines(diffText)))
  {
    var text := AddedText(Lines(diffText));
    if Blocking(search, diffText) {
      var found :| found in ScanForSecrets(search, diffText);
      var n: nat :| n < |PATTERN_LABELS| && search(n, text) && PATTERN_LABELS[n] == found;
      assert n < 7 && search(n, text);
    }
    if Matched(search, text) {
      var n: nat :| n < 7 && search(n, text);
      assert PATTERN_LABELS[n] in ScanForSecrets(search, diffText);
    }
  }

  lemma ScannedHolds(lines: seq<string>, i: nat)
    requires i < |lines| && AddsText(lines[i])
    ensures Contains(AddedText(lines), lines[i][1..])
  {
    var places := ScannedText(lines);
    assert i in places;
    var k :| 0 <= k < |places| && places[k] == i;
    JoinContains(Rests(lines, places), k);
  }

  /** What each of the seven patterns finds. */
  function ReportedAs(n: nat): Label {
    if n == 0 then GitHubToken
    else if n == 1 then FineGrainedToken
    else if n == 2 || n == 3 then GoogleApiKey
    else if n == 4 then ProviderApiKey
    else if n == 5 then PrivateKey
    else DatabaseUrl
  }

  /** A credential on one added line blocks the change, whatever else is in it. */
  lemma AddedCredentialBlocks(search: Matcher, diffText: string, i: nat, n: nat)
    requires Local(search) && n < 7
    requires i < |Lines(diffText)| && AddsText(Lines(diffText)[i]) && search(n, Lines(diffText)[i][1..])
    ensures Blocking(search, diffText) && ReportedAs(n) in ScanForSecrets(search, diffText)
  {
    ScannedHolds(Lines(diffText), i);
    assert search(n, AddedText(Lines(diffText)));
    BlockingIsAMatch(search, diffText);
    assert PATTERN_LABELS[n] in ScanForSecrets(search, diffText);
  }

  /** Context, headers and removed lines alone scan as the empty text. */
  lemma NothingAddedScansEmpty(lines: seq<string>)
    requires forall i: nat :: i < |lines| ==> !AddsText(lines[i])
    ensures AddedText(lines) == ""
  {
    var places := ScannedText(lines);
    assert |places| == 0;
  }
}
