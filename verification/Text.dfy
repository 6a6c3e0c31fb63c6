/** Text operations several components share, over ASCII characters. */
module Text {

  const NUL: char := '\0'

  ghost predicate NulFree(s: string) { NUL !in s }

  predicate IsSpace(c: char) {
    c == ' ' || '\t' <= c <= '\r'
  }

  function TrimStart(s: string): string {
    if s != "" && IsSpace(s[0]) then TrimStart(s[1..]) else s
  }

  function TrimEnd(s: string): string {
    if s != "" && IsSpace(s[|s| - 1]) then TrimEnd(s[..|s| - 1]) else s
  }

  function Trim(s: string): string { TrimEnd(TrimStart(s)) }

  predicate Tight(s: string) {
    s != "" ==> !IsSpace(s[0]) && !IsSpace(s[|s| - 1])
  }

  lemma {:induction false} TrimStartShape(s: string)
    ensures var t := TrimStart(s); t != "" ==> !IsSpace(t[0])
  {
    if s != "" && IsSpace(s[0]) { TrimStartShape(s[1..]); }
  }

  lemma {:induction false} TrimEndShape(s: string)
    ensures var t := TrimEnd(s);
            t <= s && (t != "" ==> !IsSpace(t[|t| - 1]))
  {
    if s != "" && IsSpace(s[|s| - 1]) { TrimEndShape(s[..|s| - 1]); }
  }

  /** `trim` removes exactly the outer blanks: its fixed points are the strings without any. */
  lemma TrimIsTight(s: string)
    ensures Tight(Trim(s))
    ensures Trim(s) == s <==> Tight(s)
  {
    TrimStartShape(s);
    TrimEndShape(TrimStart(s));
  }

  predicate AllBlank(s: string) { forall i :: 0 <= i < |s| ==> IsSpace(s[i]) }

  lemma {:induction false} TrimStartDrops(s: string) returns (i: nat)
    ensures i <= |s| && TrimStart(s) == s[i..] && AllBlank(s[..i])
  {
    i := 0;
    if s != "" && IsSpace(s[0]) {
      var n := TrimStartDrops(s[1..]);
      i := n + 1;
      assert s[..i] == [s[0]] + s[1..][..n];
    }
  }

  lemma {:induction false} TrimEndDrops(s: string) returns (j: nat)
    ensures j <= |s| && TrimEnd(s) == s[..j] && AllBlank(s[j..])
  {
    j := |s|;
    if s != "" && IsSpace(s[|s| - 1]) {
      var init := s[..|s| - 1];
      j := TrimEndDrops(init);
      assert s[j..] == init[j..] + [s[|s| - 1]] && init[..j] == s[..j];
    }
  }

  /** What `trim` drops is blank, on either side; with `TrimIsTight` this determines it. */
  lemma TrimDropsBlanks(s: string) returns (i: nat, j: nat)
    ensures i <= j <= |s| && Trim(s) == s[i..j] && AllBlank(s[..i]) && AllBlank(s[j..])
  {
    i := TrimStartDrops(s);
    var n := TrimEndDrops(s[i..]);
    j := i + n;
    assert s[i..][n..] == s[j..] && s[i..][..n] == s[i..j];
  }

  /** A text is trimmed to nothing exactly when it is blank. */
  lemma TrimsToNothingIff(s: string)
    ensures Trim(s) == "" <==> AllBlank(s)
  {
    var i, j := TrimDropsBlanks(s);
    TrimIsTight(s);
    if Trim(s) == "" {
      assert s == s[..i] + s[j..];
    } else {
      assert !IsSpace(Trim(s)[0]) && Trim(s)[0] == s[i];
    }
  }

  lemma {:induction false} TrimStartKeeps(s: string)
    ensures |TrimStart(s)| <= |s| && forall c :: c in TrimStart(s) ==> c in s
  {
    if s != "" && IsSpace(s[0]) { TrimStartKeeps(s[1..]); }
  }

  lemma TrimKeeps(s: string)
    ensures |Trim(s)| <= |s| && forall c :: c in Trim(s) ==> c in s
  {
    TrimStartKeeps(s);
    TrimEndShape(TrimStart(s));
  }

  function LowerChar(c: char): char {
    if 'A' <= c <= 'Z' then c - 'A' + 'a' else c
  }

  function Lower(s: string): (r: string)
    ensures |r| == |s|
    ensures forall i :: 0 <= i < |s| ==> r[i] == LowerChar(s[i])
  {
    if s == "" then "" else [LowerChar(s[0])] + Lower(s[1..])
  }

  predicate IsControl(c: char) { (c as int) < 0x20 || c as int == 0x7f }

  function IndexOf(s: string, c: char): (i: nat)
    ensures i <= |s|
    ensures i < |s| ==> s[i] == c
    ensures forall j :: 0 <= j < i ==> s[j] != c
  {
    if s == "" || s[0] == c then 0 else 1 + IndexOf(s[1..], c)
  }

  predicate Contains(s: string, word: string) {
    exists i | 0 <= i <= |s| :: word <= s[i..]
  }

  predicate EndsWith(s: string, word: string) {
    |s| >= |word| && s[|s| - |word|..] == word
  }

  /** The parts between the occurrences of `c`: always at least one. */
  function Split(s: string, c: char): (parts: seq<string>)
    ensures |parts| >= 1
  {
    if s == "" then [""]
    else
      var rest := Split(s[1..], c);
      if s[0] == c then [""] + rest
      else [[s[0]] + rest[0]] + rest[1..]
  }

  lemma {:induction false} SplitPrefix(head: string, tail: string, c: char)
    requires c !in head
    ensures Split(head + [c] + tail, c) == [head] + Split(tail, c)
    ensures Split(head, c) == [head]
    decreases head
  {
    if head == "" {
      assert (head + [c] + tail)[1..] == tail;
    } else {
      SplitPrefix(head[1..], tail, c);
      assert (head + [c] + tail)[1..] == head[1..] + [c] + tail;
      assert [head[0]] + head[1..] == head;
    }
  }
}
