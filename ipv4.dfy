/**
 * The dotted-quad check of `MainWindow.check_ip_address`: the input must
 * match `^\d{1,3}\.\d{1,3}\.\d{1,3}\.\d{1,3}$`, and then every piece of
 * `input.split('.')`, read with `int()`, must lie between 0 and 255.
 * The regular expression, `str.split` and `int` are each modelled on
 * their own, and lemmas relate the three.
 */
module IPv4 {
  import Strings

  /** `\d`, restricted to the ASCII digits. */
  predicate IsDigit(c: char) {
    '0' <= c <= '9'
  }

  predicate AllDigits(s: string) {
    forall i :: 0 <= i < |s| ==> IsDigit(s[i])
  }

  /** One `\d{1,3}` group. */
  predicate IsGroup(g: string) {
    1 <= |g| <= 3 && AllDigits(g)
  }

  /** Every piece is a `\d{1,3}` group. */
  predicate AllGroups(parts: seq<string>) {
    forall i :: 0 <= i < |parts| ==> IsGroup(parts[i])
  }

  /** End of the run of digits that starts at position `i`. */
  function DigitRunFrom(s: string, i: nat): (k: nat)
    requires i <= |s|
    ensures i <= k <= |s|
    ensures k < |s| ==> !IsDigit(s[k])
    decreases |s| - i
  {
    if i == |s| || !IsDigit(s[i]) then i else DigitRunFrom(s, i + 1)
  }

  /** Length of the run of digits `s` starts with. */
  function DigitRun(s: string): (n: nat)
    ensures n <= |s|
    ensures n < |s| ==> !IsDigit(s[n])
  {
    DigitRunFrom(s, 0)
  }

  /** Everything between `i` and the end of the run is a digit. */
  lemma {:induction false} DigitRunFromDigits(s: string, i: nat)
    requires i <= |s|
    ensures forall j :: i <= j < DigitRunFrom(s, i) ==> IsDigit(s[j])
    decreases |s| - i
  {
    if i < |s| && IsDigit(s[i]) {
      DigitRunFromDigits(s, i + 1);
    }
  }

  /** Everything before the end of the run is a digit. */
  lemma DigitRunDigits(s: string)
    ensures forall i :: 0 <= i < DigitRun(s) ==> IsDigit(s[i])
  {
    DigitRunFromDigits(s, 0);
  }

  /** The run passes over digits. */
  lemma {:induction false} DigitRunFromSkips(s: string, i: nat, m: nat)
    requires i <= m <= |s| && forall j :: i <= j < m ==> IsDigit(s[j])
    ensures DigitRunFrom(s, i) == DigitRunFrom(s, m)
    decreases m - i
  {
    if i < m {
      DigitRunFromSkips(s, i + 1, m);
    }
  }

  /** A digit run ends exactly where the digits stop. */
  lemma DigitRunIs(s: string, m: nat)
    requires m <= |s| && forall i :: 0 <= i < m ==> IsDigit(s[i])
    requires m < |s| ==> !IsDigit(s[m])
    ensures DigitRun(s) == m
  {
    DigitRunFromSkips(s, 0, m);
  }

  /** The digits at the front of `s`, as a string of their own. */
  lemma DigitPrefix(s: string, n: nat)
    requires n <= |s| && forall i :: 0 <= i < n ==> IsDigit(s[i])
    ensures AllDigits(s[..n]) && '.' !in s[..n]
  {
    assert forall i :: 0 <= i < n ==> s[..n][i] == s[i];
  }

  /** A group's characters, read in place. */
  lemma GroupInPlace(s: string, k: nat)
    requires k <= |s| && IsGroup(s[..k])
    ensures forall i :: 0 <= i < k ==> IsDigit(s[i])
  {
    assert forall i :: 0 <= i < k ==> s[..k][i] == s[i];
  }

  /**
   * `groups` copies of `\d{1,3}` separated by `\.`, followed by the end of
   * the input. Digits and the dot are disjoint, so the regular expression
   * never gains by backtracking: a group is the whole run of digits, and
   * that run must be one to three long.
   */
  predicate MatchGroups(s: string, groups: nat)
    requires groups >= 1
    ensures MatchGroups(s, groups) ==> 2 * groups - 1 <= |s| <= 4 * groups - 1
    decreases groups
  {
    var n := DigitRun(s);
    1 <= n <= 3 &&
    if groups == 1 then n == |s|
    else n < |s| && s[n] == '.' && MatchGroups(s[n + 1..], groups - 1)
  }

  /** `re.match(r'^\d{1,3}\.\d{1,3}\.\d{1,3}\.\d{1,3}$', s)` succeeds. */
  predicate MatchesPattern(s: string)
    ensures MatchesPattern(s) ==> 7 <= |s| <= 15
  {
    MatchGroups(s, 4)
  }

  /** Python's `s.split('.')`: the pieces between dots, empty ones included. */
  function Split(s: string): (parts: seq<string>)
    ensures |parts| >= 1
    decreases |s|
  {
    var k := Strings.IndexOf(s, '.');
    if k == |s| then [s] else [s[..k]] + Split(s[k + 1..])
  }

  /** `'.'.join(parts)`. */
  function JoinDots(parts: seq<string>): string
    requires |parts| >= 1
  {
    if |parts| == 1 then parts[0] else parts[0] + "." + JoinDots(parts[1..])
  }

  /** Joining a head onto two or more pieces puts a dot after the head. */
  lemma JoinCons(head: string, tail: seq<string>)
    requires |tail| >= 1
    ensures JoinDots([head] + tail) == head + "." + JoinDots(tail)
  {
    assert ([head] + tail)[1..] == tail;
  }

  /** Splitting loses nothing: joining the pieces gives back the input. */
  lemma {:induction false} JoinSplit(s: string)
    ensures JoinDots(Split(s)) == s
    decreases |s|
  {
    var k := Strings.IndexOf(s, '.');
    if k < |s| {
      var head, rest := s[..k], s[k + 1..];
      CutAtFirstDot(s, k);
      SplitCons(head, rest);
      JoinSplit(rest);
      JoinCons(head, Split(rest));
    }
  }

  /** A split at the first dot: the first piece, then the split of the rest. */
  lemma SplitCons(head: string, rest: string)
    requires '.' !in head
    ensures Split(head + "." + rest) == [head] + Split(rest)
  {
    var s := head + "." + rest;
    Strings.IndexOfAfter(head, '.', rest);
    assert s[..|head|] == head;
    assert s[|head| + 1..] == rest;
  }

  /** Pieces without dots come back unchanged from a join followed by a split. */
  lemma {:induction false} SplitJoin(parts: seq<string>)
    requires |parts| >= 1
    requires forall i :: 0 <= i < |parts| ==> '.' !in parts[i]
    ensures Split(JoinDots(parts)) == parts
  {
    if |parts| > 1 {
      var tail := parts[1..];
      SplitCons(parts[0], JoinDots(tail));
      SplitJoin(tail);
      assert parts == [parts[0]] + tail;
    }
  }

  /** `s` cut at a dot. */
  lemma CutAt(s: string, n: nat)
    requires n < |s| && s[n] == '.'
    ensures s == s[..n] + "." + s[n + 1..]
  {
    assert s == s[..n] + [s[n]] + s[n + 1..];
  }

  /** `s` cut at its first dot. */
  lemma CutAtFirstDot(s: string, k: nat)
    requires k == Strings.IndexOf(s, '.') && k < |s|
    ensures s == s[..k] + "." + s[k + 1..] && '.' !in s[..k]
  {
    Strings.IndexOfFirst(s, '.');
    assert s == s[..k] + [s[k]] + s[k + 1..];
  }

  /** The regular expression's last group: the whole remaining input is one group. */
  lemma LastGroup(s: string)
    requires MatchGroups(s, 1)
    ensures Split(s) == [s] && IsGroup(s)
  {
    assert s[..|s|] == s;
    DigitRunDigits(s);
    DigitPrefix(s, |s|);
  }

  /** The pieces of `[g] + tail` are groups when `g` and every piece of `tail` are. */
  lemma GroupsCons(g: string, tail: seq<string>)
    requires IsGroup(g) && AllGroups(tail)
    ensures AllGroups([g] + tail)
  {
    forall i | 0 <= i < |tail| + 1 ensures IsGroup(([g] + tail)[i]) {
      if i > 0 { assert ([g] + tail)[i] == tail[i - 1]; }
    }
  }

  /** A split that starts with a group and continues with groups has one more group. */
  lemma SplitGroupsCons(parts: seq<string>, head: string, tail: seq<string>)
    requires parts == [head] + tail && IsGroup(head) && AllGroups(tail)
    ensures |parts| == |tail| + 1 && AllGroups(parts)
  {
    GroupsCons(head, tail);
  }

  /** A match of several groups: a group, a dot, and a match of the remaining groups. */
  lemma MatchStep(s: string, groups: nat) returns (head: string, rest: string)
    requires groups >= 2 && MatchGroups(s, groups)
    ensures Split(s) == [head] + Split(rest)
    ensures IsGroup(head) && MatchGroups(rest, groups - 1)
  {
    var n := DigitRun(s);
    head, rest := s[..n], s[n + 1..];
    DigitRunDigits(s);
    DigitPrefix(s, n);
    CutAt(s, n);
    SplitCons(head, rest);
  }

  lemma {:induction false} MatchGroupsGivesGroups(s: string, groups: nat)
    requires groups >= 1 && MatchGroups(s, groups)
    ensures |Split(s)| == groups && AllGroups(Split(s))
    decreases groups
  {
    if groups == 1 {
      LastGroup(s);
    } else {
      var head, rest := MatchStep(s, groups);
      MatchGroupsGivesGroups(rest, groups - 1);
      SplitGroupsCons(Split(s), head, Split(rest));
    }
  }

  /** The pieces after the first one are groups too. */
  lemma GroupsTail(parts: seq<string>)
    requires |parts| >= 1 && AllGroups(parts)
    ensures AllGroups(parts[1..])
  {
    forall i | 0 <= i < |parts| - 1 ensures IsGroup(parts[1..][i]) {
      assert parts[1..][i] == parts[i + 1];
    }
  }

  /** A split into several groups: a group, then a dot, then the split of the rest. */
  lemma GroupsStep(s: string) returns (rest: string)
    requires |Split(s)| >= 2 && AllGroups(Split(s))
    ensures 1 <= DigitRun(s) <= 3 && DigitRun(s) < |s| && s[DigitRun(s)] == '.'
    ensures rest == s[DigitRun(s) + 1..]
    ensures |Split(rest)| == |Split(s)| - 1 && AllGroups(Split(rest))
  {
    var k := Strings.IndexOf(s, '.');
    var parts := Split(s);
    CutAtFirstDot(s, k);
    SplitCons(s[..k], s[k + 1..]);
    assert parts[0] == s[..k];
    GroupInPlace(s, k);
    DigitRunIs(s, k);
    GroupsTail(parts);
    rest := s[k + 1..];
  }

  /** A group, a dot, and a match of the remaining groups make a match. */
  lemma MatchCons(s: string, rest: string, groups: nat)
    requires groups >= 2 && 1 <= DigitRun(s) <= 3 && DigitRun(s) < |s| && s[DigitRun(s)] == '.'
    requires rest == s[DigitRun(s) + 1..] && MatchGroups(rest, groups - 1)
    ensures MatchGroups(s, groups)
  {
  }

  /** A split into one group: the whole input is that group. */
  lemma GroupsLast(s: string)
    requires |Split(s)| == 1 && AllGroups(Split(s))
    ensures DigitRun(s) == |s| && 1 <= |s| <= 3
  {
    assert Split(s) == [s];
    assert IsGroup(Split(s)[0]);
    assert s[..|s|] == s;
    GroupInPlace(s, |s|);
    DigitRunIs(s, |s|);
  }

  lemma {:induction false} GroupsGiveMatchGroups(s: string, groups: nat)
    requires groups >= 1 && |Split(s)| == groups && AllGroups(Split(s))
    ensures MatchGroups(s, groups)
    decreases groups
  {
    if groups == 1 {
      GroupsLast(s);
    } else {
      var rest := GroupsStep(s);
      GroupsGiveMatchGroups(rest, groups - 1);
      MatchCons(s, rest, groups);
    }
  }

  /**
   * The regular expression accepts exactly the strings whose split has
   * `groups` pieces, each one to three digits.
   */
  lemma MatchGroupsSplit(s: string, groups: nat)
    requires groups >= 1
    ensures MatchGroups(s, groups) <==> |Split(s)| == groups && AllGroups(Split(s))
  {
    if MatchGroups(s, groups) {
      MatchGroupsGivesGroups(s, groups);
    }
    if |Split(s)| == groups && AllGroups(Split(s)) {
      GroupsGiveMatchGroups(s, groups);
    }
  }

  function Pow10(n: nat): (p: nat)
    ensures p >= 1
  {
    if n == 0 then 1 else 10 * Pow10(n - 1)
  }

  /** The value of one ASCII digit. */
  function Digit(c: char): int {
    c as int - '0' as int
  }

  /** Python's `int()` on a string of ASCII digits; leading zeros are allowed. */
  function DecimalValue(g: string): (v: nat)
    requires AllDigits(g)
    ensures v < Pow10(|g|)
    decreases |g|
  {
    if g == [] then 0
    else DecimalValue(g[..|g| - 1]) * 10 + Digit(g[|g| - 1])
  }

  /** `int()` of every piece, in order. */
  function Values(parts: seq<string>): (vs: seq<nat>)
    requires forall i :: 0 <= i < |parts| ==> AllDigits(parts[i])
    ensures |vs| == |parts|
    ensures forall i :: 0 <= i < |parts| ==> vs[i] == DecimalValue(parts[i])
  {
    if parts == [] then [] else [DecimalValue(parts[0])] + Values(parts[1..])
  }

  /** What `check_ip_address` concludes about its input. */
  datatype Verdict =
    | Accepted(octets: seq<nat>)
    | MalformedFormat   // the regular expression does not match
    | OctetOutOfRange   // it matches, but some piece is above 255

  /** The two tests of `check_ip_address`, in the order it makes them. */
  function Validate(s: string): (r: Verdict)
    ensures r.Accepted? ==> |r.octets| == 4 && forall i :: 0 <= i < 4 ==> r.octets[i] <= 255
  {
    if !MatchesPattern(s) then MalformedFormat
    else
      MatchGroupsSplit(s, 4);
      var octets := Split(s);
      if forall i :: 0 <= i < |octets| ==> 0 <= DecimalValue(octets[i]) <= 255
      then Accepted(Values(octets))
      else OctetOutOfRange
  }

  /**
   * The validator accepts exactly four dot-separated groups of one to three
   * digits whose values are at most 255, tells a wrong shape apart from an
   * out-of-range group, and reports the octets in order.
   */
  lemma ValidateIff(s: string)
    ensures Validate(s).MalformedFormat? <==>
              !(|Split(s)| == 4 && forall i :: 0 <= i < 4 ==> IsGroup(Split(s)[i]))
    ensures Validate(s).Accepted? <==>
              |Split(s)| == 4 &&
              forall i :: 0 <= i < 4 ==> IsGroup(Split(s)[i]) && DecimalValue(Split(s)[i]) <= 255
    ensures Validate(s).Accepted? ==>
              forall i :: 0 <= i < 4 ==> Validate(s).octets[i] == DecimalValue(Split(s)[i])
  {
    MatchGroupsSplit(s, 4);
  }

  /**
   * Any four groups of one to three digits, joined by dots, are accepted
   * when every group is at most 255 and rejected as out of range otherwise.
   */
  lemma ValidateQuad(groups: seq<string>, octets: seq<nat>)
    requires |groups| == 4 && AllGroups(groups)
    requires |octets| == 4 && forall i :: 0 <= i < 4 ==> octets[i] == DecimalValue(groups[i])
    ensures Validate(JoinDots(groups)) ==
              if forall i :: 0 <= i < 4 ==> octets[i] <= 255 then Accepted(octets) else OctetOutOfRange
  {
    var s := JoinDots(groups);
    SplitJoin(groups);
    ValidateIff(s);
    if forall i :: 0 <= i < 4 ==> octets[i] <= 255 {
      assert Validate(s).Accepted?;
      assert Validate(s).octets == Values(groups) == octets;
    } else {
      assert !Validate(s).Accepted? && !Validate(s).MalformedFormat?;
    }
  }

  /** Four pieces joined by dots. */
  lemma JoinQuad(g: seq<string>)
    requires |g| == 4
    ensures JoinDots(g) == g[0] + "." + g[1] + "." + g[2] + "." + g[3]
  {
    var t2 := [g[2]] + [g[3]];
    var t1 := [g[1]] + t2;
    assert g == [g[0]] + t1;
    JoinCons(g[2], [g[3]]);
    JoinCons(g[1], t2);
    JoinCons(g[0], t1);
  }

  /** A group's value, digit by digit. */
  lemma DecimalDigits(g: string)
    requires IsGroup(g)
    ensures DecimalValue(g) ==
              if |g| == 1 then Digit(g[0])
              else if |g| == 2 then 10 * Digit(g[0]) + Digit(g[1])
              else 100 * Digit(g[0]) + 10 * Digit(g[1]) + Digit(g[2])
  {
    var p := g[..|g| - 1];
    assert |g| >= 2 ==> p[..|p| - 1] == g[..|g| - 2];
    assert |g| == 3 ==> g[..1][..0] == [];
  }

  /** The broadcast address, 255 four times, is accepted. */
  lemma AcceptsBroadcast(g: string)
    requires g == "255"
    ensures Validate(g + "." + g + "." + g + "." + g) == Accepted([255, 255, 255, 255])
  {
    JoinQuad([g, g, g, g]);
    DecimalDigits(g);
    ValidateQuad([g, g, g, g], [255, 255, 255, 255]);
  }

  /** Leading zeros are accepted and read as decimal: "010.0.00.1" gives 10, 0, 0, 1. */
  lemma AcceptsLeadingZeros(a: string, b: string, c: string, d: string)
    requires a == "010" && b == "0" && c == "00" && d == "1"
    ensures Validate(a + "." + b + "." + c + "." + d) == Accepted([10, 0, 0, 1])
  {
    JoinQuad([a, b, c, d]);
    DecimalDigits(a);
    DecimalDigits(b);
    DecimalDigits(c);
    DecimalDigits(d);
    ValidateQuad([a, b, c, d], [10, 0, 0, 1]);
  }

  /** "256.1.1.1" has the right shape but an octet above 255. */
  lemma RejectsOctet256(a: string, b: string)
    requires a == "256" && b == "1"
    ensures Validate(a + "." + b + "." + b + "." + b) == OctetOutOfRange
  {
    JoinQuad([a, b, b, b]);
    DecimalDigits(a);
    DecimalDigits(b);
    ValidateQuad([a, b, b, b], [256, 1, 1, 1]);
  }

  /** Three groups do not match the pattern. */
  lemma RejectsThreeGroups(s: string)
    requires s == "1.2.3"
    ensures Validate(s) == MalformedFormat
  {
    var g := [s[..1], s[2..3], s[4..]];
    assert JoinDots(g) == g[0] + "." + JoinDots(g[1..]);
    assert s == g[0] + "." + g[1] + "." + g[2];
    SplitJoin(g);
    ValidateIff(s);
  }

  /** A group of four digits does not match the pattern. */
  lemma RejectsWideGroup(s: string)
    requires s == "1234.1.1.1"
    ensures Validate(s) == MalformedFormat
  {
    var g := [s[..4], s[5..6], s[7..8], s[9..]];
    JoinQuad(g);
    assert s == g[0] + "." + g[1] + "." + g[2] + "." + g[3];
    SplitJoin(g);
    ValidateIff(s);
  }
}
