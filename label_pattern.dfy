/**
 * The label line pattern of src/main.ts, `(?<label>.+):\s*(?<done>\d+)\/(?<total>\d+)`,
 * evaluated as JavaScript's `String.prototype.match` does: the pattern is not
 * anchored, so the match starts at the leftmost index where it can, and the
 * greedy `.+` makes the label end at the last colon that the rest of the
 * pattern accepts.
 */
module LabelPattern {

  import opened Wrappers
  import opened Strings

  /** The characters `.` does not match. */
  predicate IsLineTerminator(c: char) {
    c == '\n' || c == '\r' || c == '\U{2028}' || c == '\U{2029}'
  }

  /** End of the run of `\s` starting at `i`. */
  function SkipSpaces(s: string, i: nat): (j: nat)
    requires i <= |s|
    ensures i <= j <= |s|
    ensures forall k :: i <= k < j ==> IsSpace(s[k])
    ensures j == |s| || !IsSpace(s[j])
    decreases |s| - i
  {
    if i < |s| && IsSpace(s[i]) then SkipSpaces(s, i + 1) else i
  }

  /** End of the run of `\d` starting at `i`. */
  function SkipDigits(s: string, i: nat): (j: nat)
    requires i <= |s|
    ensures i <= j <= |s|
    ensures AllDigits(s[i..j])
    ensures j == |s| || !IsDigit(s[j])
    decreases |s| - i
  {
    if i < |s| && IsDigit(s[i]) then
      var j := SkipDigits(s, i + 1);
      assert s[i..j] == [s[i]] + s[i + 1..j];
      j
    else i
  }

  /** The two numbers the pattern captures. */
  datatype Counts = Counts(done: nat, total: nat)

  /**
   * The captures of `:\s*(\d+)\/(\d+)` matched at index `e`, where the greedy
   * `\s*` and `\d+` each take their whole run.
   */
  function TailAt(s: string, e: nat): Option<Counts>
  {
    if e < |s| && s[e] == ':' then
      var j := SkipSpaces(s, e + 1);
      var k := SkipDigits(s, j);
      if j < k < |s| && s[k] == '/' then
        var m := SkipDigits(s, k + 1);
        if k + 1 < m then Some(Counts(DigitsValue(s[j..k]), DigitsValue(s[k + 1..m]))) else None
      else None
    else None
  }

  /**
   * One way, among all a backtracking matcher could try, for `:\s*\d+\/\d+`
   * to match at `e`: spaces in (e, j), digits in [j, k), `/` at k, digits in (k, m).
   */
  ghost predicate TailShape(s: string, e: nat, j: nat, k: nat, m: nat) {
    e < j <= k < m <= |s| && j < k && k + 1 < m &&
    s[e] == ':' &&
    (forall i :: e < i < j ==> IsSpace(s[i])) &&
    (forall i :: j <= i < k ==> IsDigit(s[i])) &&
    s[k] == '/' &&
    (forall i :: k < i < m ==> IsDigit(s[i]))
  }

  /**
   * Backtracking cannot find another way: any match of the tail at `e` has the
   * runs `TailAt` takes, and the captures are those runs' values.
   */
  lemma TailShapeForced(s: string, e: nat, j: nat, k: nat, m: nat)
    requires TailShape(s, e, j, k, m)
    ensures j == SkipSpaces(s, e + 1) && k == SkipDigits(s, j) && m <= SkipDigits(s, k + 1)
    ensures TailAt(s, e) == Some(Counts(DigitsValue(s[j..k]), DigitsValue(s[k + 1..SkipDigits(s, k + 1)])))
  {
    assert IsDigit(s[j]) && !IsSpace(s[j]);
  }

  /** Conversely the runs `TailAt` takes are one way for the tail to match. */
  lemma TailAtShape(s: string, e: nat)
    requires TailAt(s, e).Some?
    ensures var j := SkipSpaces(s, e + 1);
            var k := SkipDigits(s, j);
            TailShape(s, e, j, k, SkipDigits(s, k + 1))
  {
    var j := SkipSpaces(s, e + 1);
    var k := SkipDigits(s, j);
    var m := SkipDigits(s, k + 1);
    assert s[e] == ':' && j < k < |s| && s[k] == '/' && k + 1 < m;
    DigitsWithin(s, j, k);
    DigitsWithin(s, k + 1, m);
  }

  /** The characters of a digit slice are digits of the whole string. */
  lemma DigitsWithin(s: string, i: nat, j: nat)
    requires i <= j <= |s| && AllDigits(s[i..j])
    ensures forall k :: i <= k < j ==> IsDigit(s[k])
  {
    forall k | i <= k < j ensures IsDigit(s[k]) {
      assert s[i..j][k - i] == s[k];
    }
  }

  /** `.+` can cover `s[p..e]`: at least one character and no line terminator. */
  ghost predicate LabelRun(s: string, p: nat, e: nat) {
    p < e <= |s| && forall i :: p <= i < e ==> !IsLineTerminator(s[i])
  }

  /** The whole pattern matches with the label group at `s[p..e]`. */
  ghost predicate MatchAt(s: string, p: nat, e: nat) {
    LabelRun(s, p, e) && TailAt(s, e).Some?
  }

  /** The first line terminator at or after `p`, or the end of `s`. */
  function RunEnd(s: string, p: nat): (q: nat)
    requires p <= |s|
    ensures p <= q <= |s|
    ensures forall i :: p <= i < q ==> !IsLineTerminator(s[i])
    ensures q == |s| || IsLineTerminator(s[q])
    decreases |s| - p
  {
    if p < |s| && !IsLineTerminator(s[p]) then RunEnd(s, p + 1) else p
  }

  /** Greedy `.+` from `p`: the largest label end in (p, hi] at which the tail matches. */
  function Greedy(s: string, p: nat, hi: nat): (r: Option<nat>)
    requires hi <= |s|
    ensures r.Some? ==> p < r.value <= hi && TailAt(s, r.value).Some? &&
                        forall e :: r.value < e <= hi ==> TailAt(s, e).None?
    ensures r.None? ==> forall e :: p < e <= hi ==> TailAt(s, e).None?
    decreases hi
  {
    if hi <= p then None
    else if TailAt(s, hi).Some? then Some(hi)
    else Greedy(s, p, hi - 1)
  }

  /**
   * The match search from start index `p` onwards: the leftmost start at which
   * the pattern matches, with the largest label end there.
   */
  function Search(s: string, p: nat): (r: Option<(nat, nat)>)
    requires p <= |s|
    ensures r.Some? ==> p <= r.value.0 && MatchAt(s, r.value.0, r.value.1)
    ensures r.Some? ==> forall e: nat :: r.value.1 < e ==> !MatchAt(s, r.value.0, e)
    ensures r.Some? ==> forall q: nat, e: nat :: p <= q < r.value.0 ==> !MatchAt(s, q, e)
    ensures r.None? ==> forall q: nat, e: nat :: p <= q ==> !MatchAt(s, q, e)
    decreases |s| - p
  {
    if p == |s| then None
    else
      match Greedy(s, p, RunEnd(s, p))
      case Some(e) => Some((p, e))
      case None => Search(s, p + 1)
  }

  /** The groups of a successful match. */
  datatype LabelMatch = LabelMatch(text: string, done: nat, total: nat)

  /** The groups captured by a match whose label group is `s[p..e]`. */
  function Captures(s: string, p: nat, e: nat): LabelMatch
    requires p <= e && TailAt(s, e).Some?
  {
    var counts := TailAt(s, e).value;
    LabelMatch(s[p..e], counts.done, counts.total)
  }

  /** No start before `p` admits a match. */
  ghost predicate Leftmost(s: string, p: nat) {
    forall q: nat, e: nat :: q < p ==> !MatchAt(s, q, e)
  }

  /** From start `p`, no label end after `e` admits a match. */
  ghost predicate Longest(s: string, p: nat, e: nat) {
    forall e': nat :: e < e' ==> !MatchAt(s, p, e')
  }

  /** `line.match(labelRegex)` with its three groups, or None when it does not match. */
  function MatchLabel(line: string): (r: Option<LabelMatch>)
    ensures r.Some? ==> r.value.text != [] && forall i :: 0 <= i < |r.value.text| ==> !IsLineTerminator(r.value.text[i])
  {
    match Search(line, 0)
    case None => None
    case Some((p, e)) => Some(Captures(line, p, e))
  }

  /**
   * What a match returns: the groups of the leftmost match, with the longest
   * label from that start; no match means the pattern matches nowhere.
   */
  lemma MatchLabelSpec(line: string)
    ensures MatchLabel(line).None? <==> forall p: nat, e: nat :: !MatchAt(line, p, e)
    ensures MatchLabel(line).Some? ==>
      exists p: nat, e: nat :: MatchAt(line, p, e) && MatchLabel(line).value == Captures(line, p, e) &&
                     Leftmost(line, p) && Longest(line, p, e)
  {
    match Search(line, 0)
    case None =>
    case Some((p, e)) =>
      assert MatchAt(line, p, e) && Leftmost(line, p) && Longest(line, p, e);
  }

  /**
   * On a line without line terminators the label is a prefix: the longest
   * non-empty prefix followed by `:`, optional white space, digits, `/`, digits.
   */
  lemma SingleLineLabel(line: string)
    requires forall i :: 0 <= i < |line| ==> !IsLineTerminator(line[i])
    ensures MatchLabel(line).Some? <==> exists e :: 0 < e <= |line| && TailAt(line, e).Some?
    ensures MatchLabel(line).Some? ==>
      var m := MatchLabel(line).value;
      exists e :: 0 < e <= |line| && m.text == line[..e] && TailAt(line, e) == Some(Counts(m.done, m.total)) &&
        forall e' :: e < e' <= |line| ==> TailAt(line, e').None?
  {
    match Search(line, 0)
    case None =>
      forall e | 0 < e <= |line| ensures TailAt(line, e).None? {
        assert !MatchAt(line, 0, e);
      }
    case Some((p, e)) =>
      assert MatchAt(line, p, e);
      assert MatchAt(line, 0, e);
      assert p == 0;
      forall e' | e < e' <= |line| ensures TailAt(line, e').None? {
        assert !MatchAt(line, 0, e');
      }
  }

  /**
   * The match is read off a known one: if the tail matches at `e` from start
   * 0 and no colon after `e` is accepted, the groups are those of `line[..e]`.
   */
  lemma MatchFromPrefix(line: string, e: nat)
    requires 0 < e <= |line| && TailAt(line, e).Some?
    requires forall i :: 0 <= i < e ==> !IsLineTerminator(line[i])
    requires forall e': nat :: e < e' < |line| ==> line[e'] != ':'
    ensures MatchLabel(line) == Some(Captures(line, 0, e))
  {
    assert MatchAt(line, 0, e);
    MatchLabelSpec(line);
    var p: nat, e0: nat :| MatchAt(line, p, e0) && MatchLabel(line).value == Captures(line, p, e0) &&
                          Leftmost(line, p) && Longest(line, p, e0);
    assert p == 0;
    assert e0 == e;
  }

  /** The label line of the usage example. */
  lemma BooksRead()
    ensures MatchLabel("Books read: 5/10") == Some(LabelMatch("Books read", 5, 10))
  {
    BooksReadTail();
    BooksReadPlain();
    MatchFromPrefix("Books read: 5/10", 10);
  }

  /** The label of the usage example holds no line terminator, and no colon follows its own. */
  lemma BooksReadPlain()
    ensures "Books read: 5/10"[..10] == "Books read"
    ensures forall i :: 0 <= i < 10 ==> !IsLineTerminator("Books read: 5/10"[i])
    ensures forall e': nat :: 10 < e' < 16 ==> "Books read: 5/10"[e'] != ':'
  {
  }

  lemma BooksReadTail()
    ensures TailAt("Books read: 5/10", 10) == Some(Counts(5, 10))
  {
    var line := "Books read: 5/10";
    assert line[10] == ':' && line[11] == ' ' && line[12] == '5' && line[13] == '/';
    assert SkipSpaces(line, 12) == 12;
    assert SkipSpaces(line, 11) == 12;
    assert SkipDigits(line, 13) == 13;
    assert SkipDigits(line, 12) == 13;
    assert SkipDigits(line, 16) == 16;
    assert SkipDigits(line, 15) == 16;
    assert SkipDigits(line, 14) == 16;
    assert line[12..13] == "5" && line[14..16] == "10";
    assert DigitsValue("5") == 5;
    assert DigitsValue("10") == 10 by { assert "10"[..1] == "1"; }
  }

  /** The greedy label keeps an earlier colon and ratio: the last accepted colon ends it. */
  lemma GreedyLabel()
    ensures MatchLabel("a: 1/2: 3/4") == Some(LabelMatch("a: 1/2", 3, 4))
  {
    GreedyLabelTail();
    GreedyLabelPlain();
    MatchFromPrefix("a: 1/2: 3/4", 6);
  }

  /** The greedy label holds no line terminator, and no colon follows the one that ends it. */
  lemma GreedyLabelPlain()
    ensures "a: 1/2: 3/4"[..6] == "a: 1/2"
    ensures forall i :: 0 <= i < 6 ==> !IsLineTerminator("a: 1/2: 3/4"[i])
    ensures forall e': nat :: 6 < e' < 11 ==> "a: 1/2: 3/4"[e'] != ':'
  {
  }

  lemma GreedyLabelTail()
    ensures TailAt("a: 1/2: 3/4", 6) == Some(Counts(3, 4))
  {
    var line := "a: 1/2: 3/4";
    assert SkipDigits(line, 11) == 11;
    assert SkipDigits(line, 10) == 11;
    assert SkipDigits(line, 9) == 9;
    assert SkipDigits(line, 8) == 9;
    assert SkipSpaces(line, 8) == 8;
    assert SkipSpaces(line, 7) == 8;
    assert line[8..9] == "3" && line[10..11] == "4";
  }

}
