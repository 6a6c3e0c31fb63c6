/** How a manually entered Git remote is summarised: the repository path, and the scp-like form
    `user@host:path`. What the platform's URL parser makes of a host is a parameter. */
module RemotePath {
  import opened Text
  import opened Wrappers

  const SUFFIX := ".git"
  const MAX_REMOTE: nat := 4096

  // ---- the path ----

  function DropLeading(s: string): string {
    if s != "" && s[0] == '/' then DropLeading(s[1..]) else s
  }

  function DropTrailing(s: string): string {
    if s != "" && s[|s| - 1] == '/' then DropTrailing(s[..|s| - 1]) else s
  }

  function TrimSlashes(s: string): string { DropTrailing(DropLeading(s)) }

  function DropSuffix(s: string): string {
    if EndsWith(s, SUFFIX) then s[..|s| - 4] else s
  }

  predicate SafeComponent(c: string) {
    c != "" && c != "." && c != ".." && forall i :: 0 <= i < |c| ==> (c[i] as int) >= 0x20
  }

  predicate SafePath(path: string) {
    && path != "" && '\\' !in path && '?' !in path && '#' !in path
    && (var lowered := Lower(path);
        !Contains(lowered, "%00") && !Contains(lowered, "%2f") && !Contains(lowered, "%5c")
            && !Contains(lowered, "%2e"))
    && forall k :: 0 <= k < |Split(path, '/')| ==> SafeComponent(Split(path, '/')[k])
  }

  /** `normalizeSafeRepositoryPath`; `None` is the error it throws. */
  function Normalize(value: string): Option<string> {
    var path := DropSuffix(TrimSlashes(value));
    if SafePath(path) then Some(path) else None
  }

  predicate AllSlashes(s: string) { forall i :: 0 <= i < |s| ==> s[i] == '/' }

  /** No slash at either end. */
  predicate Bare(s: string) { s != "" ==> s[0] != '/' && s[|s| - 1] != '/' }

  lemma {:induction false} DropLeadingSlashes(a: string, s: string)
    requires AllSlashes(a)
    ensures DropLeading(a + s) == DropLeading(s)
  {
    if a == "" {
      assert a + s == s;
    } else {
      DropLeadingSlashes(a[1..], s);
      assert (a + s)[1..] == a[1..] + s;
    }
  }

  lemma {:induction false} DropTrailingSlashes(s: string, b: string)
    requires AllSlashes(b)
    ensures DropTrailing(s + b) == DropTrailing(s)
  {
    if b == "" {
      assert s + b == s;
    } else {
      DropTrailingSlashes(s, b[..|b| - 1]);
      assert (s + b)[..|s + b| - 1] == s + b[..|b| - 1];
    }
  }

  /** The slashes around a bare text are exactly what trimming drops. */
  lemma TrimDropsTheSlashes(a: string, s: string, b: string)
    requires AllSlashes(a) && AllSlashes(b) && Bare(s) && s != ""
    ensures TrimSlashes(a + s + b) == s
  {
    DropLeadingSlashes(a, s + b);
    assert a + s + b == a + (s + b);
    assert DropLeading(s + b) == s + b;
    DropTrailingSlashes(s, b);
  }

  /** When every part but the first is non-empty, no slash is last or doubled. */
  lemma {:induction false} SlashesSeparate(s: string, i: nat)
    requires forall k :: 1 <= k < |Split(s, '/')| ==> Split(s, '/')[k] != ""
    requires i < |s| && s[i] == '/'
    ensures i + 1 < |s| && s[i + 1] != '/'
  {
    var rest := Split(s[1..], '/');
    if s[0] == '/' {
      assert Split(s, '/')[1..] == rest;
      assert rest[0] == Split(s, '/')[1];
      assert forall k :: 1 <= k < |rest| ==> rest[k] == Split(s, '/')[k + 1];
    } else {
      assert forall k :: 1 <= k < |rest| ==> rest[k] == Split(s, '/')[k];
    }
    if i > 0 { SlashesSeparate(s[1..], i - 1); }
  }

  /** An accepted path has no outer slash and no empty component. */
  lemma SafePathIsBare(path: string)
    requires SafePath(path)
    ensures path != "" && Bare(path) && '\\' !in path
    ensures forall i :: 0 <= i < |path| - 1 && path[i] == '/' ==> path[i + 1] != '/'
  {
    assert forall k :: 0 <= k < |Split(path, '/')| ==> SafeComponent(Split(path, '/')[k]);
    assert Split(path, '/')[0] != "";
    if path[|path| - 1] == '/' { SlashesSeparate(path, |path| - 1); }
    forall i | 0 <= i < |path| - 1 && path[i] == '/' ensures path[i + 1] != '/' { SlashesSeparate(path, i); }
  }

  /** A component: between two slashes, or a slash and an end, with none inside. */
  predicate Segment(s: string, i: nat, j: nat)
    requires i <= j <= |s|
  {
    && (i == 0 || s[i - 1] == '/') && (j == |s| || s[j] == '/') && '/' !in s[i..j]
  }

  lemma {:induction false} SegmentIsPart(s: string, i: nat, j: nat)
    requires i <= j <= |s| && Segment(s, i, j)
    ensures s[i..j] in Split(s, '/')
    decreases |s|
  {
    hide Split, IndexOf;
    var n := IndexOf(s, '/');
    assert '/' !in s[..n];
    if i == 0 {
      FirstSegmentIsPart(s, j);
    } else {
      var tail := s[n + 1..];
      SplitPrefix(s[..n], tail, '/');
      assert s == s[..n] + ['/'] + tail && tail[i - n - 1..j - n - 1] == s[i..j];
      assert i > n + 1 ==> tail[i - n - 2] == s[i - 1];
      assert j < |s| ==> tail[j - n - 1] == s[j];
      SegmentIsPart(tail, i - n - 1, j - n - 1);
    }
  }

  lemma FirstSegmentIsPart(s: string, j: nat)
    requires j <= |s| && Segment(s, 0, j)
    ensures s[0..j] in Split(s, '/')
  {
    hide Split;
    if j == |s| {
      SplitPrefix(s, "", '/');
      assert s[0..j] == s && [s][0] == s;
    } else {
      SplitPrefix(s[..j], s[j + 1..], '/');
      assert s == s[..j] + ['/'] + s[j + 1..] && s[0..j] == s[..j];
      assert ([s[..j]] + Split(s[j + 1..], '/'))[0] == s[..j];
    }
  }

  /** Every component of an accepted path is safe: not empty, not "." or "..", and without controls. */
  lemma ComponentsAreSafe(value: string, i: nat, j: nat)
    requires Normalize(value).Some? && i <= j <= |Normalize(value).value| && Segment(Normalize(value).value, i, j)
    ensures SafeComponent(Normalize(value).value[i..j])
  {
    hide SafeComponent, Segment;
    var path := Normalize(value).value;
    SegmentIsPart(path, i, j);
    var k :| 0 <= k < |Split(path, '/')| && Split(path, '/')[k] == path[i..j];
  }

  /** Every part of a split text is a component of it. */
  lemma {:induction false} PartIsSegment(s: string, k: nat) returns (i: nat, j: nat)
    requires k < |Split(s, '/')|
    ensures i <= j <= |s| && Segment(s, i, j) && s[i..j] == Split(s, '/')[k]
    decreases |s|
  {
    hide Split, IndexOf;
    var n := IndexOf(s, '/');
    SplitAtFirst(s);
    if k == 0 {
      i, j := 0, n;
    } else {
      var tail := s[n + 1..];
      var at, end := PartIsSegment(tail, k - 1);
      i, j := at + n + 1, end + n + 1;
      assert s[i..j] == tail[at..end];
      assert at > 0 ==> tail[at - 1] == s[i - 1];
      assert end < |tail| ==> tail[end] == s[j];
    }
  }

  lemma {:induction false} SplitAtFirst(s: string)
    ensures var n := IndexOf(s, '/');
            && '/' !in s[..n]
            && (n == |s| ==> s[..n] == s && Split(s, '/') == [s])
            && (n < |s| ==> Split(s, '/') == [s[..n]] + Split(s[n + 1..], '/'))
  {
    var n := IndexOf(s, '/');
    if s != "" && s[0] != '/' {
      var tail := s[1..];
      SplitAtFirst(tail);
      assert s[..n] == [s[0]] + tail[..n - 1];
      assert n < |s| ==> s[n + 1..] == tail[n..];
    }
  }

  /** The escapes of a NUL, a slash, a backslash and a dot, in either letter case. */
  predicate Escape(s: string, i: nat) {
    && i + 2 < |s| && s[i] == '%'
    && (|| (s[i + 1] == '0' && s[i + 2] == '0')
        || (s[i + 1] == '2' && (s[i + 2] == 'f' || s[i + 2] == 'F' || s[i + 2] == 'e' || s[i + 2] == 'E'))
        || (s[i + 1] == '5' && (s[i + 2] == 'c' || s[i + 2] == 'C')))
  }

  lemma WordAt(s: string, i: nat, word: string)
    requires i <= |s| && |word| == 3
    ensures word <= s[i..] <==> i + 2 < |s| && s[i] == word[0] && s[i + 1] == word[1] && s[i + 2] == word[2]
  {
    if i + 2 < |s| { assert s[i..][..3] == [s[i], s[i + 1], s[i + 2]]; }
  }

  lemma EscapesIff(s: string)
    ensures (exists i: nat :: Escape(s, i)) <==>
            var lowered := Lower(s);
            || Contains(lowered, "%00") || Contains(lowered, "%2f")
            || Contains(lowered, "%5c") || Contains(lowered, "%2e")
  {
    hide Lower;
    var lowered := Lower(s);
    forall i: nat | i <= |s|
      ensures Escape(s, i) <==> "%00" <= lowered[i..] || "%2f" <= lowered[i..] || "%5c" <= lowered[i..]
                                || "%2e" <= lowered[i..]
    {
      WordAt(lowered, i, "%00");
      WordAt(lowered, i, "%2f");
      WordAt(lowered, i, "%5c");
      WordAt(lowered, i, "%2e");
    }
  }

  /** Exactly the safe paths are accepted: not empty, without backslash, query, fragment or escaped
      separators and dots, and with every component safe. */
  lemma {:induction false} SafePathIff(path: string)
    ensures SafePath(path) <==>
            && path != "" && '\\' !in path && '?' !in path && '#' !in path
            && (forall i: nat :: !Escape(path, i))
            && (forall i, j :: 0 <= i <= j <= |path| && Segment(path, i, j) ==>
                  path[i..j] != "" && path[i..j] != "." && path[i..j] != ".."
                  && forall k :: i <= k < j ==> (path[k] as int) >= 0x20)
  {
    hide Split, Contains, Lower, Escape;
    EscapesIff(path);
    forall i, j | 0 <= i <= j <= |path| && Segment(path, i, j) ensures path[i..j] in Split(path, '/') {
      SegmentIsPart(path, i, j);
    }
    forall i, j | 0 <= i <= j <= |path|
      ensures (forall k :: i <= k < j ==> (path[k] as int) >= 0x20) <==>
              (forall k :: 0 <= k < j - i ==> (path[i..j][k] as int) >= 0x20)
    {
      PlainCharacters(path, i, j);
    }
    forall k | 0 <= k < |Split(path, '/')|
      ensures exists i, j :: 0 <= i <= j <= |path| && Segment(path, i, j) && path[i..j] == Split(path, '/')[k]
    {
      var i, j := PartIsSegment(path, k);
    }
  }

  lemma PlainCharacters(s: string, i: nat, j: nat)
    requires i <= j <= |s|
    ensures (forall k :: i <= k < j ==> (s[k] as int) >= 0x20) <==>
            (forall k :: 0 <= k < j - i ==> (s[i..j][k] as int) >= 0x20)
  {
    if forall k :: 0 <= k < j - i ==> (s[i..j][k] as int) >= 0x20 {
      forall k | i <= k < j ensures (s[k] as int) >= 0x20 { assert s[i..j][k - i] == s[k]; }
    }
  }

  lemma SuffixedIsBare(path: string)
    requires path != "" && Bare(path)
    ensures Bare(path + SUFFIX) && EndsWith(path + SUFFIX, SUFFIX) && DropSuffix(path + SUFFIX) == path
  {
    assert (path + SUFFIX)[|path|..] == SUFFIX && (path + SUFFIX)[..|path|] == path;
  }

  lemma NormalizeSuffixed(path: string)
    requires SafePath(path)
    ensures Normalize(path + SUFFIX) == Some(path)
  {
    hide SafePath;
    SafePathIsBare(path);
    SuffixedIsBare(path);
    TrimDropsTheSlashes("", path + SUFFIX, "");
    assert "" + (path + SUFFIX) + "" == path + SUFFIX;
  }

  /** Rendering an accepted path with ".git" and normalising again gives the path back. */
  lemma NormalizeRenderedPath(value: string)
    requires Normalize(value).Some?
    ensures Normalize(Normalize(value).value + SUFFIX) == Normalize(value)
  {
    hide SafePath;
    NormalizeSuffixed(Normalize(value).value);
  }

  lemma {:induction false} SlashesTrimAway(b: string)
    requires AllSlashes(b)
    ensures DropLeading(b) == ""
  {
    if b != "" { SlashesTrimAway(b[1..]); }
  }

  lemma {:induction false} DropLeadingOfAppend(s: string, b: string)
    requires AllSlashes(b)
    ensures DropLeading(s + b) == if DropLeading(s) == "" then "" else DropLeading(s) + b
  {
    if s == "" {
      assert s + b == b;
      SlashesTrimAway(b);
    } else if s[0] == '/' {
      DropLeadingOfAppend(s[1..], b);
      assert (s + b)[1..] == s[1..] + b;
    }
  }

  /** Slashes around a text make no difference, whatever the text. */
  lemma OuterSlashesAgree(a: string, s: string, b: string)
    requires AllSlashes(a) && AllSlashes(b)
    ensures Normalize(a + s + b) == Normalize(s)
  {
    hide SafePath;
    DropLeadingSlashes(a, s + b);
    assert a + s + b == a + (s + b);
    DropLeadingOfAppend(s, b);
    DropTrailingSlashes(DropLeading(s), b);
  }

  /** A ".git" behind a path without outer slashes makes no difference exactly when the path does not end
      in one already, or is refused with and without it. */
  lemma SuffixAgreesIff(path: string)
    requires path != "" && Bare(path)
    ensures Normalize(path + SUFFIX) == Normalize(path)
            <==> !EndsWith(path, SUFFIX) || (!SafePath(path) && !SafePath(path[..|path| - 4]))
  {
    hide SafePath;
    SuffixedIsBare(path);
    TrimDropsTheSlashes("", path, "");
    TrimDropsTheSlashes("", path + SUFFIX, "");
    assert "" + path + "" == path && "" + (path + SUFFIX) + "" == path + SUFFIX;
    if EndsWith(path, SUFFIX) { assert |path[..|path| - 4]| != |path|; }
  }

  /** The spellings of one repository: outer slashes never matter, and one ".git" does not matter behind a
      path that has none. */
  lemma SpellingsAgree(a: string, path: string, b: string)
    requires AllSlashes(a) && AllSlashes(b) && path != "" && Bare(path)
    ensures Normalize(a + path + b) == Normalize(path)
    ensures Normalize(a + path + SUFFIX + b) == Normalize(path)
            <==> !EndsWith(path, SUFFIX) || (!SafePath(path) && !SafePath(path[..|path| - 4]))
  {
    hide SafePath, Normalize, Bare, AllSlashes, EndsWith;
    OuterSlashesAgree(a, path, b);
    OuterSlashesAgree(a, path + SUFFIX, b);
    assert a + path + SUFFIX + b == a + (path + SUFFIX) + b;
    SuffixAgreesIff(path);
  }

  /** "a.git" and "a.git.git" are two repositories, and a second pass over the second gives the first. */
  lemma DoubledSuffixIsAnother()
    ensures Normalize("a.git") == Some("a") && Normalize("a.git.git") == Some("a.git")
  {
    hide SafePath, Normalize, IsLetters;
    LettersAndDots();
    PlainNameIsSafe("a");
    PlainNameIsSafe("a.git");
    NormalizeSuffixed("a");
    NormalizeSuffixed("a.git");
    assert "a" + SUFFIX == "a.git" && "a.git" + SUFFIX == "a.git.git";
  }

  lemma WithoutFirstNoWord(s: string, word: string)
    requires word != "" && word[0] !in s
    ensures !Contains(s, word)
  {
  }

  predicate IsLetters(s: string) {
    s != "" && s != "." && s != ".." && forall i :: 0 <= i < |s| ==> 'a' <= s[i] <= 'z' || s[i] == '.'
  }

  lemma LettersAndDots()
    ensures IsLetters("a") && IsLetters("a.git")
  {
  }

  lemma PlainNameIsSafe(s: string)
    requires IsLetters(s)
    ensures SafePath(s)
  {
    hide Contains, Lower;
    SplitPrefix(s, "", '/');
    assert Lower(s) == s;
    WithoutFirstNoWord(s, "%00");
    WithoutFirstNoWord(s, "%2f");
    WithoutFirstNoWord(s, "%5c");
    WithoutFirstNoWord(s, "%2e");
  }

  /** Normalising an accepted path once more changes nothing unless it still ends in ".git": only one
      suffix is dropped at a time. */
  lemma NormalizeAgain(value: string)
    requires Normalize(value).Some?
    ensures Normalize(Normalize(value).value) == Normalize(value) <==> !EndsWith(Normalize(value).value, SUFFIX)
  {
    hide SafePath;
    var path := Normalize(value).value;
    SafePathIsBare(path);
    TrimDropsTheSlashes("", path, "");
    assert "" + path + "" == path;
  }

  lemma {:induction false} LeadingSlashes(s: string) returns (i: nat)
    ensures i <= |s| && DropLeading(s) == s[i..] && AllSlashes(s[..i])
  {
    i := 0;
    if s != "" && s[0] == '/' {
      var n := LeadingSlashes(s[1..]);
      i := n + 1;
      assert s[..i] == [s[0]] + s[1..][..n];
    }
  }

  lemma {:induction false} TrailingSlashes(s: string) returns (j: nat)
    ensures j <= |s| && DropTrailing(s) == s[..j] && AllSlashes(s[j..])
  {
    j := |s|;
    if s != "" && s[|s| - 1] == '/' {
      var init := s[..|s| - 1];
      j := TrailingSlashes(init);
      assert s[j..] == init[j..] + [s[|s| - 1]] && init[..j] == s[..j];
    }
  }

  /** Exactly these texts normalise to a path: it is safe, and the text is the path, with ".git" or, if it
      does not end so itself, without, between any slashes. */
  lemma {:induction false} NormalizeIff(value: string, path: string)
    ensures Normalize(value) == Some(path) <==>
            && SafePath(path)
            && exists a, tail, b ::
                 AllSlashes(a) && AllSlashes(b) && Tail(path, tail) && value == Spelled(a, path, tail, b)
  {
    hide SafePath, Normalize;
    if Normalize(value) == Some(path) {
      var a, tail, b := NormalizedIsMiddle(value, path);
    }
    if a, tail, b :| && SafePath(path) && AllSlashes(a) && AllSlashes(b) && Tail(path, tail)
                     && value == Spelled(a, path, tail, b) {
      NormalizeSpelled(path, tail);
      OuterSlashesAgree(a, path + tail, b);
    }
  }

  function Spelled(a: string, path: string, tail: string, b: string): string { a + (path + tail) + b }

  lemma NormalizedIsMiddle(value: string, path: string) returns (a: string, tail: string, b: string)
    requires Normalize(value) == Some(path)
    ensures SafePath(path) && AllSlashes(a) && AllSlashes(b) && Tail(path, tail) && value == Spelled(a, path, tail, b)
  {
    hide SafePath;
    var i := LeadingSlashes(value);
    var j := TrailingSlashes(value[i..]);
    var middle := value[i..][..j];
    a, tail, b := value[..i], if EndsWith(middle, SUFFIX) then SUFFIX else "", value[i..][j..];
    assert value == a + middle + b;
    assert middle == path + tail;
  }

  // ---- the scp-like form ----

  datatype SummaryError = Unsafe | UrlForm

  predicate HasControl(s: string) { exists i | 0 <= i < |s| :: IsControl(s[i]) }

  predicate UserChar(c: char) {
    'A' <= c <= 'Z' || 'a' <= c <= 'z' || '0' <= c <= '9' || c == '.' || c == '_' || c == '-'
  }

  predicate SafeUser(s: string) { 0 < |s| <= 256 && forall i :: 0 <= i < |s| ==> UserChar(s[i]) }

  predicate Letter(c: char) { 'A' <= c <= 'Z' || 'a' <= c <= 'z' }

  /** `isGitRemoteHelper`: a scheme-like word in front of the first double colon. */
  predicate RemoteHelper(s: string) {
    exists i | 0 < i <= |s| :: && "::" <= s[i..] && Letter(s[0])
                               && forall j :: 0 <= j < i ==> Letter(s[j]) || '0' <= s[j] <= '9' || s[j] in "+.-"
  }

  /** `safeManualRemoteSummary` without its URL branch. `host` is what parsing `ssh://<host>/` makes of
      a host, when it makes nothing but a host of it. */
  function Summary(value: string, host: string -> Option<string>): Result<string, SummaryError> {
    if value == "" || |value| > MAX_REMOTE || RemoteHelper(value) || HasControl(value) then Err(Unsafe)
    else if Contains(value, "://") then Err(UrlForm)
    else
      var at := IndexOf(value, '@');
      if at == 0 || at == |value| || '@' in value[at + 1..] then Err(Unsafe) else
      var user, rest := value[..at], value[at + 1..];
      var separator := IndexOf(rest, ':');
      if separator == 0 || separator == |rest| || !SafeUser(user) then Err(Unsafe) else
      var rawHost, rawPath := rest[..separator], rest[separator + 1..];
      if '/' in rawHost || '\\' in rawHost
          || (rawPath != "" && (rawPath[0] == '/' || rawPath[0] == '\\')) then Err(Unsafe) else
      match host(rawHost)
      case None => Err(Unsafe)
      case Some(h) =>
        match Normalize(rawPath)
        case None => Err(Unsafe)
        case Some(path) => Ok(Rendered(user, h, path))
  }

  function Rendered(user: string, h: string, path: string): string { user + "@" + h + ":" + path + SUFFIX }

  predicate PlainHost(h: string) {
    h != "" && '@' !in h && ':' !in h && '/' !in h && '\\' !in h && !HasControl(h)
  }

  ghost predicate HostIsIdempotent(host: string -> Option<string>) {
    forall raw :: host(raw).Some? ==> PlainHost(host(raw).value) && host(host(raw).value) == host(raw)
  }

  /** What a summary is made of. */
  ghost predicate Parts(user: string, h: string, path: string) {
    SafeUser(user) && PlainHost(h) && SafePath(path) && '@' !in path && !HasControl(path)
  }

  lemma {:induction false} DropLeadingKeeps(s: string)
    ensures forall c :: c in DropLeading(s) ==> c in s
  {
    if s != "" && s[0] == '/' { DropLeadingKeeps(s[1..]); }
  }

  lemma {:induction false} DropTrailingKeeps(s: string)
    ensures forall c :: c in DropTrailing(s) ==> c in s
  {
    if s != "" && s[|s| - 1] == '/' { DropTrailingKeeps(s[..|s| - 1]); }
  }

  lemma NormalizeKeeps(value: string)
    requires Normalize(value).Some?
    ensures SafePath(Normalize(value).value) && forall c :: c in Normalize(value).value ==> c in value
  {
    hide SafePath;
    DropLeadingKeeps(value);
    DropTrailingKeeps(DropLeading(value));
  }

  lemma TailKeeps(s: string, i: nat)
    requires i <= |s|
    ensures forall c :: c in s[i..] ==> c in s
  {
  }

  lemma ControlsStay(s: string, t: string)
    requires forall c :: c in s ==> c in t
    ensures HasControl(s) ==> HasControl(t)
  {
    if i :| 0 <= i < |s| && IsControl(s[i]) {
      assert s[i] in t;
      var j :| 0 <= j < |t| && t[j] == s[i];
    }
  }

  lemma {:induction false} SummaryHasParts(value: string, host: string -> Option<string>)
    returns (user: string, h: string, path: string)
    requires HostIsIdempotent(host) && Summary(value, host).Ok?
    ensures Parts(user, h, path) && host(h) == Some(h) && Summary(value, host).value == Rendered(user, h, path)
  {
    hide RemoteHelper, Contains, SafePath, SafeUser, PlainHost, Rendered, IndexOf, HasControl, Normalize;
    var at := IndexOf(value, '@');
    var rest := value[at + 1..];
    var separator := IndexOf(rest, ':');
    user, h := value[..at], host(rest[..separator]).value;
    path := Normalize(rest[separator + 1..]).value;
    NormalizeKeeps(rest[separator + 1..]);
    TailKeeps(value, at + 1);
    TailKeeps(rest, separator + 1);
    ControlsStay(path, value);
  }

  /** `user@host:path`, taken apart at its only "@" and the first colon behind it. */
  ghost predicate HasForm(value: string, user: string, raw: string, rawPath: string) {
    && value == user + "@" + raw + ":" + rawPath
    && SafeUser(user) && '@' !in raw && '@' !in rawPath
    && raw != "" && ':' !in raw && '/' !in raw && '\\' !in raw
    && (rawPath != "" ==> rawPath[0] != '/' && rawPath[0] != '\\')
  }

  lemma FormParses(value: string, user: string, raw: string, rawPath: string)
    requires HasForm(value, user, raw, rawPath)
    ensures IndexOf(value, '@') == |user| && value[..|user|] == user && value[|user| + 1..] == raw + ":" + rawPath
    ensures '@' !in value[|user| + 1..] && IndexOf(value[|user| + 1..], ':') == |raw|
    ensures value[|user| + 1..][..|raw|] == raw && value[|user| + 1..][|raw| + 1..] == rawPath
  {
    hide IndexOf;
    assert value[|user|] == '@' && value[|user| + 1..] == raw + ":" + rawPath;
    forall i | 0 <= i < |user| ensures value[i] != '@' { assert value[i] == user[i]; }
    assert (raw + ":" + rawPath)[|raw|] == ':';
    forall i | 0 <= i < |raw| ensures (raw + ":" + rawPath)[i] != ':' { assert raw[i] in raw; }
  }

  lemma FormOfSummary(value: string, host: string -> Option<string>)
    returns (user: string, raw: string, rawPath: string)
    requires Summary(value, host).Ok?
    ensures HasForm(value, user, raw, rawPath) && host(raw).Some? && Normalize(rawPath).Some?
    ensures Summary(value, host).value == Rendered(user, host(raw).value, Normalize(rawPath).value)
  {
    hide RemoteHelper, HasControl, Contains, Normalize, IndexOf, SafeUser;
    var at := IndexOf(value, '@');
    var rest := value[at + 1..];
    var separator := IndexOf(rest, ':');
    user, raw, rawPath := value[..at], rest[..separator], rest[separator + 1..];
    Rejoined(value, at, separator);
  }

  lemma Rejoined(value: string, at: nat, separator: nat)
    requires at < |value| && value[at] == '@' && '@' !in value[at + 1..]
    requires separator < |value[at + 1..]| && value[at + 1..][separator] == ':'
    ensures var rest := value[at + 1..];
            && value == value[..at] + "@" + rest[..separator] + ":" + rest[separator + 1..]
            && '@' !in rest[..separator] && '@' !in rest[separator + 1..]
  {
    var rest := value[at + 1..];
    assert rest == rest[..separator] + ":" + rest[separator + 1..];
    assert value == value[..at] + "@" + rest;
  }

  lemma SummaryOfForm(value: string, user: string, raw: string, rawPath: string, host: string -> Option<string>)
    requires HasForm(value, user, raw, rawPath) && host(raw).Some? && Normalize(rawPath).Some?
    requires |value| <= MAX_REMOTE && !RemoteHelper(value) && !HasControl(value) && !Contains(value, "://")
    ensures Summary(value, host) == Ok(Rendered(user, host(raw).value, Normalize(rawPath).value))
  {
    hide RemoteHelper, HasControl, Contains, Normalize, IndexOf, SafeUser;
    FormParses(value, user, raw, rawPath);
    UserIsThere(user);
  }

  /** Exactly these texts are summarised without the URL parser's help, and thus: of that form, short
      enough, no remote helper and without controls, with a host and a path that are accepted. */
  lemma {:induction false} SummaryIff(value: string, host: string -> Option<string>, summary: string)
    ensures Summary(value, host) == Ok(summary) <==>
            && |value| <= 4096 && !RemoteHelper(value) && !HasControl(value) && !Contains(value, "://")
            && exists user, raw, rawPath ::
                 && HasForm(value, user, raw, rawPath) && host(raw).Some? && Normalize(rawPath).Some?
                 && summary == user + "@" + host(raw).value + ":" + Normalize(rawPath).value + ".git"
  {
    hide RemoteHelper, HasControl, Contains, Normalize, HasForm;
    if Summary(value, host) == Ok(summary) {
      var user, raw, rawPath := FormOfSummary(value, host);
      SummaryFits(value, host);
    }
    hide Summary;
    forall user, raw, rawPath | && HasForm(value, user, raw, rawPath) && host(raw).Some? && Normalize(rawPath).Some?
                                && |value| <= MAX_REMOTE && !RemoteHelper(value) && !HasControl(value)
                                && !Contains(value, "://")
      ensures Summary(value, host) == Ok(Rendered(user, host(raw).value, Normalize(rawPath).value))
    {
      SummaryOfForm(value, user, raw, rawPath, host);
    }
  }

  lemma SummaryFits(value: string, host: string -> Option<string>)
    requires Summary(value, host).Ok?
    ensures |value| <= MAX_REMOTE && !RemoteHelper(value) && !HasControl(value) && !Contains(value, "://")
  {
    hide RemoteHelper, HasControl, Contains, Normalize;
  }

  lemma UserIsThere(user: string)
    requires SafeUser(user)
    ensures user != ""
  {
  }

  /** A source made of these parts, with or without the suffix. */
  function Source(user: string, h: string, path: string, tail: string): string { user + "@" + h + ":" + path + tail }

  predicate Tail(path: string, tail: string) { tail == SUFFIX || (tail == "" && !EndsWith(path, SUFFIX)) }

  /** Such a source is no URL and no remote helper. */
  lemma SourceIsScpLike(user: string, h: string, path: string, tail: string)
    requires Parts(user, h, path) && Tail(path, tail)
    ensures var r := Source(user, h, path, tail); !RemoteHelper(r) && !HasControl(r) && !Contains(r, "://")
  {
    hide SafePath, EndsWith;
    SafePathIsBare(path);
    var r := Source(user, h, path, tail);
    var n := |user| + 1 + |h|;
    assert r[|user|] == '@' && r[n] == ':' && r[n + 1..] == path + tail;
    forall i | 0 <= i <= |r| && "::" <= r[i..] ensures i > |user| && r[|user|] !in "+.-" {
      assert r[i..][0] == r[i] == ':';
    }
    forall i | 0 <= i <= |r| ensures !("://" <= r[i..]) {
      if i + 2 < |r| { assert r[i..][0] == r[i] && r[i..][1] == r[i + 1] && r[i..][2] == r[i + 2]; }
      if n <= i && i + 2 < |r| {
        assert r[i + 1] == (path + tail)[i - n] && r[i + 2] == (path + tail)[i + 1 - n];
      }
    }
  }

  lemma SourceParses(user: string, h: string, path: string, tail: string)
    requires Parts(user, h, path) && Tail(path, tail)
    ensures var r := Source(user, h, path, tail);
            && IndexOf(r, '@') == |user| && r[..|user|] == user && r[|user| + 1..] == h + ":" + path + tail
            && '@' !in r[|user| + 1..] && IndexOf(r[|user| + 1..], ':') == |h|
  {
    hide SafePath, IndexOf, EndsWith;
    var r := Source(user, h, path, tail);
    assert r[|user|] == '@' && r[..|user|] == user && r[|user| + 1..] == h + ":" + path + tail;
    forall i | 0 <= i < |user| ensures r[i] != '@' { assert r[i] == user[i]; }
    assert (h + ":" + path + tail)[|h|] == ':';
    forall i | 0 <= i < |h| ensures (h + ":" + path + tail)[i] != ':' { assert h[i] in h; }
  }

  /** Both spellings of a source that fits have one summary. */
  lemma SummaryOfSource(user: string, h: string, path: string, tail: string, host: string -> Option<string>)
    requires Parts(user, h, path) && Tail(path, tail) && host(h) == Some(h)
    ensures var r := Source(user, h, path, tail);
            Summary(r, host) == if |r| <= MAX_REMOTE then Ok(Rendered(user, h, path)) else Err(Unsafe)
  {
    hide SafePath, IndexOf, RemoteHelper, HasControl, Contains, Normalize, EndsWith;
    var r := Source(user, h, path, tail);
    SourceIsScpLike(user, h, path, tail);
    SourceParses(user, h, path, tail);
    SafePathIsBare(path);
    NormalizeSpelled(path, tail);
    var rest := r[|user| + 1..];
    assert rest[..|h|] == h && rest[|h| + 1..] == path + tail;
    assert (path + tail)[0] == path[0];
  }

  lemma NormalizeSpelled(path: string, tail: string)
    requires SafePath(path) && Tail(path, tail)
    ensures Normalize(path + tail) == Some(path)
  {
    hide SafePath;
    if tail == "" {
      SafePathIsBare(path);
      TrimDropsTheSlashes("", path, "");
      assert "" + path + "" == path == path + tail;
    } else {
      NormalizeSuffixed(path);
    }
  }

  /** Summarising a summary gives it back exactly when it is not too long to be summarised. */
  lemma {:induction false} SummaryIsIdempotent(value: string, host: string -> Option<string>)
    requires HostIsIdempotent(host) && Summary(value, host).Ok?
    ensures var r := Summary(value, host).value;
            Summary(r, host) == if |r| <= MAX_REMOTE then Ok(r) else Err(Unsafe)
  {
    hide Summary, Parts;
    var user, h, path := SummaryHasParts(value, host);
    SummaryOfSource(user, h, path, SUFFIX, host);
    assert Source(user, h, path, SUFFIX) == Rendered(user, h, path);
  }

  function Letters(n: nat): string { seq(n, _ => 'a') }

  /** A summary can be too long: the longest source without the suffix has one that is refused. */
  lemma {:induction false} LongestSourceIsNotStable(host: string -> Option<string>)
    requires host("h") == Some("h")
    ensures var value := "u@h:" + Letters(MAX_REMOTE - 4);
            && Summary(value, host) == Ok(value + SUFFIX)
            && Summary(value + SUFFIX, host) == Err(Unsafe)
  {
    var path := Letters(MAX_REMOTE - 4);
    LettersAreSafe(MAX_REMOTE - 4);
    assert Source("u", "h", path, "") == "u@h:" + path;
    assert Source("u", "h", path, SUFFIX) == Rendered("u", "h", path) == "u@h:" + path + SUFFIX;
    SummaryOfSource("u", "h", path, "", host);
    SummaryOfSource("u", "h", path, SUFFIX, host);
  }

  lemma LettersAreSafe(n: nat)
    requires n >= 3
    ensures Parts("u", "h", Letters(n)) && !EndsWith(Letters(n), SUFFIX)
  {
    var path := Letters(n);
    PlainNameIsSafe(path);
    assert path[0] == 'a' && path[n - 1] == 'a';
  }
}
