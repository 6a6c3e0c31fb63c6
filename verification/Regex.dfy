/** The part of regular expressions the contracts use: what an anchored expression accepts, and its
    derivatives, with which a scanner can be compared state by state. */
module Regex {
  import opened Text

  datatype Class = Digit | LowerAlnum | LowerHex | NumberChar | PlainChar | Blank | Only(c: char) | Among(chars: string)

  predicate In(c: char, k: Class) {
    match k
    case Digit => '0' <= c <= '9'
    case LowerAlnum => 'a' <= c <= 'z' || '0' <= c <= '9'
    case LowerHex => 'a' <= c <= 'f' || '0' <= c <= '9'
    case NumberChar => '0' <= c <= '9' || c == '.' || c == '-'
    case PlainChar => 'a' <= c <= 'z' || '0' <= c <= '9' || c == '.' || c == '-' || c == '%'
    case Blank => IsSpace(c)
    case Only(x) => c == x
    case Among(chars) => c in chars
  }

  datatype Re = Empty | Eps | Chr(k: Class) | Alt(a: Re, b: Re) | Cat(a: Re, b: Re) | Star(a: Re)

  function Plus(r: Re): Re { Cat(r, Star(r)) }

  function Opt(r: Re): Re { Alt(r, Eps) }

  /** Exactly the characters of `word`. */
  function Lit(word: string): Re {
    if word == "" then Eps else Cat(Chr(Only(word[0])), Lit(word[1..]))
  }

  /** Exactly `n` characters of `k`. */
  function Rep(k: Class, n: nat): Re {
    if n == 0 then Eps else Cat(Chr(k), Rep(k, n - 1))
  }

  /** `s` is in the language of `r`. */
  ghost predicate Matches(r: Re, s: string)
    decreases |s|, r
  {
    match r
    case Empty => false
    case Eps => s == ""
    case Chr(k) => |s| == 1 && In(s[0], k)
    case Alt(a, b) => Matches(a, s) || Matches(b, s)
    case Cat(a, b) => exists i | 0 <= i <= |s| :: Matches(a, s[..i]) && Matches(b, s[i..])
    case Star(a) => s == "" || exists i | 0 < i <= |s| :: Matches(a, s[..i]) && Matches(r, s[i..])
  }

  predicate Nullable(r: Re) {
    match r
    case Empty => false
    case Eps => true
    case Chr(_) => false
    case Alt(a, b) => Nullable(a) || Nullable(b)
    case Cat(a, b) => Nullable(a) && Nullable(b)
    case Star(_) => true
  }

  function MkAlt(a: Re, b: Re): Re {
    if a.Empty? then b else if b.Empty? then a else Alt(a, b)
  }

  function MkCat(a: Re, b: Re): Re {
    if a.Empty? || b.Empty? then Empty else if a.Eps? then b else Cat(a, b)
  }

  /** The expression for what may follow `c`. */
  function Deriv(r: Re, c: char): Re {
    match r
    case Empty => Empty
    case Eps => Empty
    case Chr(k) => if In(c, k) then Eps else Empty
    case Alt(a, b) => MkAlt(Deriv(a, c), Deriv(b, c))
    case Cat(a, b) =>
      if Nullable(a) then MkAlt(MkCat(Deriv(a, c), b), Deriv(b, c)) else MkCat(Deriv(a, c), b)
    case Star(a) => MkCat(Deriv(a, c), r)
  }

  predicate Accepts(r: Re, s: string)
    decreases |s|
  {
    if s == "" then Nullable(r) else Accepts(Deriv(r, s[0]), s[1..])
  }

  lemma {:induction false} NullableIsSound(r: Re)
    ensures Nullable(r) <==> Matches(r, "")
  {
    match r
    case Alt(a, b) => NullableIsSound(a); NullableIsSound(b);
    case Cat(a, b) =>
      NullableIsSound(a);
      NullableIsSound(b);
      var s: string := "";
      assert s[..0] == "" && s[0..] == "";
    case _ =>
  }

  lemma MkCatIsSound(a: Re, b: Re, s: string)
    ensures Matches(MkCat(a, b), s) <==> exists i | 0 <= i <= |s| :: Matches(a, s[..i]) && Matches(b, s[i..])
  {
    if a.Eps? && !b.Empty? {
      assert s[..0] == "" && s[0..] == s;
    }
  }

  /** The derivative is what its name says: `c` followed by `t` matches exactly when `t` matches it. */
  lemma {:induction false} DerivIsSound(r: Re, c: char, t: string)
    ensures Matches(r, [c] + t) <==> Matches(Deriv(r, c), t)
    decreases |t|, r
  {
    match r
    case Empty =>
    case Eps =>
    case Chr(k) =>
    case Alt(a, b) =>
      DerivIsSound(a, c, t);
      DerivIsSound(b, c, t);
    case Cat(a, b) =>
      DerivIsSound(b, c, t);
      NullableIsSound(a);
      MkCatIsSound(Deriv(a, c), b, t);
      CatSplits(a, b, c, t);
      forall i | 0 <= i <= |t|
        ensures SplitsAfter(a, b, c, t, i) <==> Matches(Deriv(a, c), t[..i]) && Matches(b, t[i..])
      {
        DerivIsSound(a, c, t[..i]);
      }
    case Star(a) =>
      MkCatIsSound(Deriv(a, c), r, t);
      StarSplits(a, c, t);
      forall i | 0 <= i <= |t|
        ensures SplitsAfter(a, r, c, t, i) <==> Matches(Deriv(a, c), t[..i]) && Matches(r, t[i..])
      {
        DerivIsSound(a, c, t[..i]);
      }
  }

  lemma CatJoins(a: Re, b: Re, s: string, t: string)
    requires Matches(a, s) && Matches(b, t)
    ensures Matches(Cat(a, b), s + t)
  {
    assert (s + t)[..|s|] == s && (s + t)[|s|..] == t;
  }

  lemma CatParts(a: Re, b: Re, s: string) returns (i: nat)
    requires Matches(Cat(a, b), s)
    ensures i <= |s| && Matches(a, s[..i]) && Matches(b, s[i..])
  {
    i :| i <= |s| && Matches(a, s[..i]) && Matches(b, s[i..]);
  }

  /** `a` takes `c` and the first `i` characters of `t`, `b` the rest. */
  ghost predicate SplitsAfter(a: Re, b: Re, c: char, t: string, i: int) {
    0 <= i <= |t| && Matches(a, [c] + t[..i]) && Matches(b, t[i..])
  }

  lemma CatSplitsForth(a: Re, b: Re, c: char, t: string)
    requires Matches(Cat(a, b), [c] + t)
    ensures (Matches(a, "") && Matches(b, [c] + t)) || exists i :: SplitsAfter(a, b, c, t, i)
  {
    var s := [c] + t;
    var j :| 0 <= j <= |s| && Matches(a, s[..j]) && Matches(b, s[j..]);
    if j > 0 {
      assert s[..j] == [c] + t[..j - 1] && s[j..] == t[j - 1..];
      assert SplitsAfter(a, b, c, t, j - 1);
    } else {
      assert s[..j] == "" && s[j..] == s;
    }
  }

  lemma CatSplits(a: Re, b: Re, c: char, t: string)
    ensures Matches(Cat(a, b), [c] + t) <==>
            (Matches(a, "") && Matches(b, [c] + t)) || exists i :: SplitsAfter(a, b, c, t, i)
  {
    hide Matches;
    var s := [c] + t;
    if Matches(Cat(a, b), s) { CatSplitsForth(a, b, c, t); }
    if Matches(a, "") && Matches(b, s) {
      CatJoins(a, b, "", s);
      assert "" + s == s;
    }
    if i :| SplitsAfter(a, b, c, t, i) {
      CatJoins(a, b, [c] + t[..i], t[i..]);
      assert [c] + t[..i] + t[i..] == s;
    }
  }

  lemma StarSplits(a: Re, c: char, t: string)
    ensures Matches(Star(a), [c] + t) <==> exists i :: SplitsAfter(a, Star(a), c, t, i)
  {
    var s := [c] + t;
    if Matches(Star(a), s) {
      var j :| 0 < j <= |s| && Matches(a, s[..j]) && Matches(Star(a), s[j..]);
      assert s[..j] == [c] + t[..j - 1] && s[j..] == t[j - 1..];
      assert SplitsAfter(a, Star(a), c, t, j - 1);
    }
    if i :| SplitsAfter(a, Star(a), c, t, i) {
      assert s[..i + 1] == [c] + t[..i] && s[i + 1..] == t[i..];
    }
  }

  /** Following derivatives decides the language. */
  lemma {:induction false} AcceptsIsSound(r: Re, s: string)
    ensures Accepts(r, s) <==> Matches(r, s)
    decreases |s|
  {
    if s == "" {
      NullableIsSound(r);
    } else {
      AcceptsIsSound(Deriv(r, s[0]), s[1..]);
      DerivIsSound(r, s[0], s[1..]);
      assert [s[0]] + s[1..] == s;
    }
  }

  lemma {:induction false} EmptyAcceptsNothing(s: string)
    ensures !Accepts(Empty, s)
  {
    if s != "" { EmptyAcceptsNothing(s[1..]); }
  }

  // ---- languages of common forms ----

  lemma ChrMatches(k: Class, s: string)
    ensures Matches(Chr(k), s) <==> |s| == 1 && In(s[0], k)
  {
  }

  lemma AltMatches(a: Re, b: Re, s: string)
    ensures Matches(Alt(a, b), s) <==> Matches(a, s) || Matches(b, s)
  {
  }

  lemma OptMatches(a: Re, s: string)
    ensures Matches(Opt(a), s) <==> s == "" || Matches(a, s)
  {
    AltMatches(a, Eps, s);
  }

  lemma ChrCat(k: Class, r: Re, s: string)
    ensures Matches(Cat(Chr(k), r), s) <==> s != "" && In(s[0], k) && Matches(r, s[1..])
  {
    if s != "" {
      assert s[..1] == [s[0]];
    }
  }

  /** An optional character in front of an expression that never starts with it. */
  lemma OptChrCat(k: Class, r: Re, s: string)
    requires StartsOutside(r, k)
    ensures Matches(Cat(Opt(Chr(k)), r), s) <==> Matches(r, if s != "" && In(s[0], k) then s[1..] else s)
  {
    hide Matches;
    if Matches(Cat(Opt(Chr(k)), r), s) {
      var i := CatParts(Opt(Chr(k)), r, s);
      OptMatches(Chr(k), s[..i]);
      ChrMatches(k, s[..i]);
      if i == 0 && s != "" { assert s[i..] == s; MatchesStartOutside(r, k, s); }
      assert i == 0 ==> s[i..] == s;
    }
    OptMatches(Chr(k), "");
    if s != "" && In(s[0], k) {
      ChrMatches(k, [s[0]]);
      OptMatches(Chr(k), [s[0]]);
      if Matches(r, s[1..]) { CatJoins(Opt(Chr(k)), r, [s[0]], s[1..]); }
      assert [s[0]] + s[1..] == s;
    } else if Matches(r, s) {
      CatJoins(Opt(Chr(k)), r, "", s);
      assert "" + s == s;
    }
  }

  lemma {:induction false} LitMatches(word: string, s: string)
    ensures Matches(Lit(word), s) <==> s == word
  {
    if word != "" {
      ChrCat(Only(word[0]), Lit(word[1..]), s);
      if s != "" {
        LitMatches(word[1..], s[1..]);
        assert s == [s[0]] + s[1..] && word == [word[0]] + word[1..];
      }
    }
  }

  lemma {:induction false} RepMatches(k: Class, n: nat, s: string)
    ensures Matches(Rep(k, n), s) <==> |s| == n && forall i :: 0 <= i < |s| ==> In(s[i], k)
  {
    if n > 0 {
      ChrCat(k, Rep(k, n - 1), s);
      if s != "" {
        RepMatches(k, n - 1, s[1..]);
        assert s == [s[0]] + s[1..];
      }
    }
  }

  lemma {:induction false} StarMatches(k: Class, s: string)
    ensures Matches(Star(Chr(k)), s) <==> forall i :: 0 <= i < |s| ==> In(s[i], k)
  {
    if s != "" {
      StarMatches(k, s[1..]);
      assert s == [s[0]] + s[1..] && s[..1] == [s[0]];
    }
  }

  lemma PlusMatches(k: Class, s: string)
    ensures Matches(Plus(Chr(k)), s) <==> s != "" && forall i :: 0 <= i < |s| ==> In(s[i], k)
  {
    ChrCat(k, Star(Chr(k)), s);
    if s != "" {
      StarMatches(k, s[1..]);
      assert s == [s[0]] + s[1..];
    }
  }

  // ---- where an expression ends ----

  /** Every character of every match is in `k`. */
  ghost predicate Over(r: Re, k: Class) {
    match r
    case Empty => true
    case Eps => true
    case Chr(j) => forall c: char :: In(c, j) ==> In(c, k)
    case Alt(a, b) => Over(a, k) && Over(b, k)
    case Cat(a, b) => Over(a, k) && Over(b, k)
    case Star(a) => Over(a, k)
  }

  /** No match starts with a character of `k`. */
  ghost predicate StartsOutside(r: Re, k: Class) {
    match r
    case Empty => true
    case Eps => true
    case Chr(j) => forall c: char :: In(c, j) ==> !In(c, k)
    case Alt(a, b) => StartsOutside(a, k) && StartsOutside(b, k)
    case Cat(a, b) => StartsOutside(a, k) && (Nullable(a) ==> StartsOutside(b, k))
    case Star(a) => StartsOutside(a, k)
  }

  lemma {:induction false} MatchesStayOver(r: Re, k: Class, s: string)
    requires Over(r, k) && Matches(r, s)
    ensures forall i :: 0 <= i < |s| ==> In(s[i], k)
    decreases |s|, r
  {
    match r
    case Alt(a, b) => if Matches(a, s) { MatchesStayOver(a, k, s); } else { MatchesStayOver(b, k, s); }
    case Cat(a, b) =>
      var i :| 0 <= i <= |s| && Matches(a, s[..i]) && Matches(b, s[i..]);
      MatchesStayOver(a, k, s[..i]);
      MatchesStayOver(b, k, s[i..]);
      assert s == s[..i] + s[i..];
    case Star(a) =>
      if s != "" {
        var i :| 0 < i <= |s| && Matches(a, s[..i]) && Matches(r, s[i..]);
        MatchesStayOver(a, k, s[..i]);
        MatchesStayOver(r, k, s[i..]);
        assert s == s[..i] + s[i..];
      }
    case _ =>
  }

  lemma {:induction false} MatchesStartOutside(r: Re, k: Class, s: string)
    requires StartsOutside(r, k) && Matches(r, s) && s != ""
    ensures !In(s[0], k)
    decreases |s|, r
  {
    match r
    case Alt(a, b) => if Matches(a, s) { MatchesStartOutside(a, k, s); } else { MatchesStartOutside(b, k, s); }
    case Cat(a, b) =>
      var i :| 0 <= i <= |s| && Matches(a, s[..i]) && Matches(b, s[i..]);
      if i == 0 {
        assert s[..i] == "" && s[i..] == s;
        NullableIsSound(a);
        MatchesStartOutside(b, k, s);
      } else {
        MatchesStartOutside(a, k, s[..i]);
      }
    case Star(a) =>
      var i :| 0 < i <= |s| && Matches(a, s[..i]) && Matches(r, s[i..]);
      MatchesStartOutside(a, k, s[..i]);
    case _ =>
  }

  /** How many characters of `k` the string starts with. */
  function Run(s: string, k: Class): (n: nat)
    ensures n <= |s|
    ensures forall i :: 0 <= i < n ==> In(s[i], k)
    ensures n < |s| ==> !In(s[n], k)
  {
    if s == "" || !In(s[0], k) then 0 else 1 + Run(s[1..], k)
  }

  /** An expression over `k` followed by one that starts outside it has only one place to end. */
  lemma CatEndsAtRun(a: Re, b: Re, k: Class, s: string)
    requires Over(a, k) && StartsOutside(b, k)
    ensures forall i :: 0 <= i <= |s| && Matches(a, s[..i]) && Matches(b, s[i..]) ==> i == Run(s, k)
    ensures Matches(Cat(a, b), s) <==> Matches(a, s[..Run(s, k)]) && Matches(b, s[Run(s, k)..])
  {
    forall i | 0 <= i <= |s| && Matches(a, s[..i]) && Matches(b, s[i..]) ensures i == Run(s, k) {
      MatchesStayOver(a, k, s[..i]);
      if i < |s| { MatchesStartOutside(b, k, s[i..]); }
    }
  }
}
