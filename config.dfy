/** The RabbitMQ credential scan of `get_rabbitmq_auth` (src/config.py): the
    start script read from the config map is taken as a string, read line by
    line as `StringIO.readline` does, and the first line whose first
    occurrence of the quoted word "rabbitmq" is after the first column yields
    every double-quoted substring of that line, as `re.findall(r'"(.+?)"', line)` finds them. */
module RabbitmqAuth {
  import opened Wrappers
  import opened PyStr

  const Token: string := "\"rabbitmq\""

  // ----- StringIO.readline -----

  /** The position just after the line that starts at `pos`: after the next
      newline, or the end of the text. */
  function LineEnd(s: string, pos: nat): (e: nat)
    requires pos <= |s|
    ensures pos <= e <= |s|
    ensures pos < |s| ==> pos < e
    ensures forall j :: pos <= j < e - 1 ==> s[j] != '\n'
    ensures e < |s| ==> s[e - 1] == '\n'
    decreases |s| - pos
  {
    if pos == |s| then pos
    else if s[pos] == '\n' then pos + 1
    else LineEnd(s, pos + 1)
  }

  /** `readline()` at buffer position `pos`: the line with its newline, or
      the empty string at the end. */
  function ReadLine(s: string, pos: nat): string
    requires pos <= |s|
  {
    s[pos..LineEnd(s, pos)]
  }

  /** The non-empty lines `readline()` returns from `pos` on, in order. */
  function LinesFrom(s: string, pos: nat): seq<string>
    requires pos <= |s|
    decreases |s| - pos
  {
    if pos == |s| then [] else [ReadLine(s, pos)] + LinesFrom(s, LineEnd(s, pos))
  }

  function Lines(s: string): seq<string> {
    LinesFrom(s, 0)
  }

  function Concat(ls: seq<string>): string {
    if ls == [] then [] else ls[0] + Concat(ls[1..])
  }

  /** Reading line by line loses nothing: together the lines are the text. */
  lemma {:induction false} LinesConcat(s: string, pos: nat)
    requires pos <= |s|
    ensures Concat(LinesFrom(s, pos)) == s[pos..]
    decreases |s| - pos
  {
    if pos < |s| {
      var e := LineEnd(s, pos);
      LinesConcat(s, e);
      assert LinesFrom(s, pos)[1..] == LinesFrom(s, e);
      assert s[pos..] == s[pos..e] + s[e..];
    }
  }

  /** Every line read is non-empty and holds a newline at most as its last
      character; every line but the last ends with one. */
  lemma {:induction false} LinesShape(s: string, pos: nat)
    requires pos <= |s|
    ensures forall k :: 0 <= k < |LinesFrom(s, pos)| ==>
      LinesFrom(s, pos)[k] != [] && '\n' !in LinesFrom(s, pos)[k][..|LinesFrom(s, pos)[k]| - 1]
    ensures forall k :: 0 <= k < |LinesFrom(s, pos)| - 1 ==>
      LinesFrom(s, pos)[k][|LinesFrom(s, pos)[k]| - 1] == '\n'
    decreases |s| - pos
  {
    if pos < |s| {
      var e := LineEnd(s, pos);
      var ls := LinesFrom(s, pos);
      LinesShape(s, e);
      assert forall k :: 1 <= k < |ls| ==> ls[k] == LinesFrom(s, e)[k - 1];
      assert '\n' !in ls[0][..|ls[0]| - 1] by {
        forall j | 0 <= j < |ls[0]| - 1
          ensures ls[0][j] != '\n'
        {
          assert ls[0][j] == s[pos + j];
        }
      }
      if |ls| > 1 {
        assert e < |s|;
      }
    }
  }

  // ----- re.findall(r'"(.+?)"', line) -----

  /** The closing quote for a match whose body has reached `k`: the first
      quote from `k` on, provided no newline comes before it. */
  function CloseFrom(line: string, k: nat): (r: Option<nat>)
    ensures r.Some? ==> k <= r.value < |line|
    decreases |line| - k
  {
    if k >= |line| then None
    else if line[k] == '"' then Some(k)
    else if line[k] == '\n' then None
    else CloseFrom(line, k + 1)
  }

  /** The pattern tried at position `p`: an opening quote, at least one
      character other than a newline, then the nearest closing quote. */
  function MatchAt(line: string, p: nat): (r: Option<nat>)
    ensures r.Some? ==> p + 2 <= r.value < |line|
  {
    if p + 1 < |line| && line[p] == '"' && line[p + 1] != '\n' then CloseFrom(line, p + 2) else None
  }

  /** Declaratively: quotes at `p` and `k`, no newline between them, and no
      quote between them except possibly the first character of the body
      (the shortest body wins). */
  predicate IsMatch(line: string, p: int, k: int) {
    0 <= p && p + 2 <= k < |line| && line[p] == '"' && line[k] == '"' &&
    (forall j :: p < j < k ==> line[j] != '\n') &&
    (forall j :: p + 2 <= j < k ==> line[j] != '"')
  }

  lemma {:induction false} CloseFromIff(line: string, k0: nat, k: int)
    ensures CloseFrom(line, k0) == Some(k) <==>
      k0 <= k < |line| && line[k] == '"' && forall j :: k0 <= j < k ==> line[j] != '"' && line[j] != '\n'
    decreases |line| - k0
  {
    if k0 < |line| && line[k0] != '"' && line[k0] != '\n' {
      CloseFromIff(line, k0 + 1, k);
    }
  }

  /** The pattern matches at `p` exactly when a declarative match starts there. */
  lemma MatchAtIff(line: string, p: nat, k: int)
    ensures MatchAt(line, p) == Some(k) <==> IsMatch(line, p, k)
  {
    CloseFromIff(line, p + 2, k);
  }

  /** The spans `re.findall` matches from `p` on, left to right: where the
      pattern matches, take the match and go on after it; elsewhere go on at
      the next position. */
  function Spans(line: string, p: nat): (r: seq<(int, int)>)
    ensures forall i :: 0 <= i < |r| ==> p <= r[i].0 < r[i].1 < |line|
    decreases |line| - p
  {
    if p >= |line| then []
    else match MatchAt(line, p)
      case Some(k) => [(p, k)] + Spans(line, k + 1)
      case None => Spans(line, p + 1)
  }

  /** No match starts at `q` outside the spans found. */
  predicate Uncovered(r: seq<(int, int)>, q: int) {
    forall i :: 0 <= i < |r| ==> q < r[i].0 || r[i].1 < q
  }

  /** One step of the scan at `p`, spelled out. */
  lemma SpansStep(line: string, p: nat)
    requires p < |line|
    ensures MatchAt(line, p).Some? ==>
      Spans(line, p) == [(p, MatchAt(line, p).value)] + Spans(line, MatchAt(line, p).value + 1)
    ensures MatchAt(line, p).None? ==> Spans(line, p) == Spans(line, p + 1)
  {
  }

  /** Every span found is a match. */
  lemma {:induction false} SpansAreMatches(line: string, p: nat)
    ensures forall i :: 0 <= i < |Spans(line, p)| ==> IsMatch(line, Spans(line, p)[i].0, Spans(line, p)[i].1)
    decreases |line| - p
  {
    if p < |line| {
      SpansStep(line, p);
      var m := MatchAt(line, p);
      if m.Some? {
        var k := m.value;
        SpansAreMatches(line, k + 1);
        MatchAtIff(line, p, k);
        var r, rest := Spans(line, p), Spans(line, k + 1);
        assert r[0] == (p, k);
        assert forall i :: 1 <= i < |r| ==> r[i] == rest[i - 1];
      } else {
        SpansAreMatches(line, p + 1);
      }
    }
  }

  /** The matches are found left to right and do not overlap. */
  lemma {:induction false} SpansOrdered(line: string, p: nat)
    ensures var r := Spans(line, p);
      forall i :: 0 <= i < |r| - 1 ==> r[i].1 < r[i + 1].0
    decreases |line| - p
  {
    if p < |line| {
      SpansStep(line, p);
      var m := MatchAt(line, p);
      if m.Some? {
        var k := m.value;
        SpansOrdered(line, k + 1);
        var r, rest := Spans(line, p), Spans(line, k + 1);
        assert forall i :: 1 <= i < |r| ==> r[i] == rest[i - 1];
      } else {
        SpansOrdered(line, p + 1);
      }
    }
  }

  lemma UncoveredTail(span: (int, int), rest: seq<(int, int)>, q: int)
    requires Uncovered([span] + rest, q)
    ensures q < span.0 || span.1 < q
    ensures Uncovered(rest, q)
  {
    var r := [span] + rest;
    assert r[0] == span;
    forall i | 0 <= i < |rest|
      ensures q < rest[i].0 || rest[i].1 < q
    {
      assert rest[i] == r[i + 1];
    }
  }

  /** A position the scan skipped over is not the start of a match. */
  lemma {:induction false} SkippedIsNoMatch(line: string, p: nat, q: nat)
    requires p <= q < |line| && Uncovered(Spans(line, p), q)
    ensures MatchAt(line, q) == None
    decreases |line| - p
  {
    SpansStep(line, p);
    var m := MatchAt(line, p);
    if m.Some? {
      UncoveredTail((p, m.value), Spans(line, m.value + 1), q);
      if q != p {
        SkippedIsNoMatch(line, m.value + 1, q);
      }
    } else if q != p {
      SkippedIsNoMatch(line, p + 1, q);
    }
  }

  /** The matches are the leftmost ones: no match starts at a position the
      scan skips over. */
  lemma {:induction false} SpansLeftmost(line: string, p: nat)
    ensures forall q :: p <= q < |line| && Uncovered(Spans(line, p), q) ==> MatchAt(line, q) == None
  {
    forall q | p <= q < |line| && Uncovered(Spans(line, p), q)
      ensures MatchAt(line, q) == None
    {
      SkippedIsNoMatch(line, p, q);
    }
  }

  /** `re.findall(r'"(.+?)"', line)`: the body of each match. */
  function FindAll(line: string): seq<string> {
    var sp := Spans(line, 0);
    seq(|sp|, i requires 0 <= i < |sp| => line[sp[i].0 + 1..sp[i].1])
  }

  /** Every substring found is non-empty, holds no newline, and holds a
      double quote at most as its first character; it is quoted on both
      sides in the line. */
  lemma FindAllElements(line: string)
    ensures var sp := Spans(line, 0);
      var found := FindAll(line);
      |found| == |sp| &&
      forall i :: 0 <= i < |found| ==>
        found[i] != [] && '\n' !in found[i] &&
        (forall j :: 1 <= j < |found[i]| ==> found[i][j] != '"') &&
        line[sp[i].0] == '"' && line[sp[i].1] == '"'
  {
    var sp := Spans(line, 0);
    var found := FindAll(line);
    SpansAreMatches(line, 0);
    forall i | 0 <= i < |found|
      ensures found[i] != [] && '\n' !in found[i]
      ensures forall j :: 1 <= j < |found[i]| ==> found[i][j] != '"'
    {
      assert IsMatch(line, sp[i].0, sp[i].1);
      var a, b := sp[i].0, sp[i].1;
      assert found[i] == line[a + 1..b];
      forall j | 0 <= j < |found[i]|
        ensures found[i][j] != '\n'
      {
        assert found[i][j] == line[a + 1 + j];
      }
      forall j | 1 <= j < |found[i]|
        ensures found[i][j] != '"'
      {
        assert found[i][j] == line[a + 1 + j];
      }
    }
  }

  // ----- the line scan -----

  /** `line.find('"rabbitmq"') > 0`. */
  predicate Qualifies(line: string) {
    Find(line, Token) > 0
  }

  /** The quoted substrings of the first qualifying line, if any. */
  function FirstQualifying(ls: seq<string>): Option<seq<string>> {
    if ls == [] then None
    else if Qualifies(ls[0]) then Some(FindAll(ls[0]))
    else FirstQualifying(ls[1..])
  }

  /** No line qualifies exactly when the answer is None. */
  lemma {:induction false} NoneIffNoneQualifies(ls: seq<string>)
    ensures FirstQualifying(ls) == None <==> forall k :: 0 <= k < |ls| ==> !Qualifies(ls[k])
  {
    if ls != [] && !Qualifies(ls[0]) {
      NoneIffNoneQualifies(ls[1..]);
      assert forall k :: 1 <= k < |ls| ==> ls[k] == ls[1..][k - 1];
    }
  }

  /** The first qualifying line decides the answer. */
  lemma {:induction false} FirstQualifyingLine(ls: seq<string>, k: nat)
    requires k < |ls| && Qualifies(ls[k])
    requires forall j :: 0 <= j < k ==> !Qualifies(ls[j])
    ensures FirstQualifying(ls) == Some(FindAll(ls[k]))
  {
    if k > 0 {
      assert !Qualifies(ls[0]);
      assert forall j :: 0 <= j < k - 1 ==> ls[1..][j] == ls[j + 1];
      FirstQualifyingLine(ls[1..], k - 1);
    }
  }

  /** Lines after the first qualifying line are never examined. */
  lemma LaterLinesIgnored(ls: seq<string>, k: nat, rest: seq<string>)
    requires k < |ls| && Qualifies(ls[k])
    requires forall j :: 0 <= j < k ==> !Qualifies(ls[j])
    ensures FirstQualifying(ls[..k + 1] + rest) == FirstQualifying(ls)
  {
    var ls' := ls[..k + 1] + rest;
    assert forall j :: 0 <= j <= k ==> ls'[j] == ls[j];
    FirstQualifyingLine(ls, k);
    FirstQualifyingLine(ls', k);
  }

  /** A line that starts with the quoted word is skipped, even when the word
      occurs again later in it. */
  lemma ColumnZeroSkipped(line: string, rest: seq<string>)
    requires OccursAt(line, Token, 0)
    ensures !Qualifies(line)
    ensures FirstQualifying([line] + rest) == FirstQualifying(rest)
  {
    assert ([line] + rest)[1..] == rest;
  }

  /** `get_rabbitmq_auth`, from the config-map text on: read lines until one
      qualifies or the buffer is exhausted. */
  method GetRabbitmqAuth(cfg: string) returns (r: Option<seq<string>>)
    ensures r == FirstQualifying(Lines(cfg))
  {
    var pos := 0;
    while true
      invariant 0 <= pos <= |cfg|
      invariant FirstQualifying(LinesFrom(cfg, pos)) == FirstQualifying(Lines(cfg))
      decreases |cfg| - pos
    {
      var line := ReadLine(cfg, pos);
      if Find(line, Token) > 0 {
        return Some(FindAll(line));
      }
      if line == [] {
        break;
      }
      assert LinesFrom(cfg, pos)[1..] == LinesFrom(cfg, LineEnd(cfg, pos));
      pos := LineEnd(cfg, pos);
    }
    r := None;
  }
}
