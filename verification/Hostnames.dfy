/** Text helpers of Go's `strings` package, on ASCII text. */
module Text {
  const SPACES: set<char> := {' ', '\t', '\n', '\r', '\U{000B}', '\U{000C}'}

  function Lower(c: char): char {
    if 'A' <= c <= 'Z' then (c as int + 32) as char else c
  }

  function ToLower(s: string): (r: string)
    ensures |r| == |s| && forall i | 0 <= i < |s| :: r[i] == Lower(s[i])
  {
    seq(|s|, i requires 0 <= i < |s| => Lower(s[i]))
  }

  function TrimLeft(s: string, cut: set<char>): (r: string)
    ensures |r| <= |s|
  {
    if s != "" && s[0] in cut then TrimLeft(s[1..], cut) else s
  }

  function TrimRight(s: string, cut: set<char>): (r: string)
    ensures |r| <= |s|
  {
    if s != "" && s[|s| - 1] in cut then TrimRight(s[..|s| - 1], cut) else s
  }

  function Trim(s: string, cut: set<char>): (r: string)
    ensures |r| <= |s|
  {
    TrimRight(TrimLeft(s, cut), cut)
  }

  function TrimSpace(s: string): string {
    Trim(s, SPACES)
  }

  predicate HasPrefix(s: string, p: string) {
    |p| <= |s| && s[..|p|] == p
  }

  predicate HasSuffix(s: string, p: string) {
    |p| <= |s| && s[|s| - |p|..] == p
  }

  predicate Contains(s: string, p: string) {
    exists i | 0 <= i <= |s| :: HasPrefix(s[i..], p)
  }

  /** The ends of `s` carry no character of `cut`. */
  predicate Bare(s: string, cut: set<char>) {
    s == "" || (s[0] !in cut && s[|s| - 1] !in cut)
  }

  lemma {:induction false} TrimLeftIsASuffix(s: string, cut: set<char>)
    ensures TrimLeft(s, cut) == s[|s| - |TrimLeft(s, cut)|..]
    ensures TrimLeft(s, cut) != "" ==> TrimLeft(s, cut)[0] !in cut
  {
    if s != "" && s[0] in cut {
      TrimLeftIsASuffix(s[1..], cut);
    }
  }

  lemma {:induction false} TrimRightIsAPrefix(s: string, cut: set<char>)
    ensures TrimRight(s, cut) == s[..|TrimRight(s, cut)|]
    ensures TrimRight(s, cut) != "" ==> TrimRight(s, cut)[|TrimRight(s, cut)| - 1] !in cut
  {
    if s != "" && s[|s| - 1] in cut {
      TrimRightIsAPrefix(s[..|s| - 1], cut);
    }
  }

  lemma TrimIsIdentityExactlyOnBare(s: string, cut: set<char>)
    ensures Trim(s, cut) == s <==> Bare(s, cut)
    ensures Bare(Trim(s, cut), cut)
  {
    TrimLeftIsASuffix(s, cut);
    TrimRightIsAPrefix(TrimLeft(s, cut), cut);
  }

  predicate IsLower(s: string) {
    forall i | 0 <= i < |s| :: Lower(s[i]) == s[i]
  }

  lemma ToLowerIsIdentityExactlyOnLower(s: string)
    ensures ToLower(s) == s <==> IsLower(s)
    ensures IsLower(ToLower(s))
  {
    if IsLower(s) {
      assert ToLower(s) == s;
    }
  }

  lemma ToLowerKeepsBare(s: string)
    ensures Bare(ToLower(s), SPACES) <==> Bare(s, SPACES)
  {
  }

  // ---- Letter case -----------------------------------------------------------------

  const UPPER: string := "ABCDEFGHIJKLMNOPQRSTUVWXYZ"
  const LOWER: string := "abcdefghijklmnopqrstuvwxyz"

  /** `a` is a capital letter and `b` the small one. */
  predicate Capital(a: char, b: char) {
    exists k | 0 <= k < 26 :: a == UPPER[k] && b == LOWER[k]
  }

  predicate SameLetter(a: char, b: char) {
    a == b || Capital(a, b) || Capital(b, a)
  }

  predicate SameButForCase(v: string, w: string) {
    |v| == |w| && forall i | 0 <= i < |v| :: SameLetter(v[i], w[i])
  }

  lemma Letters()
    ensures forall k | 0 <= k < 26 :: UPPER[k] as int == 'A' as int + k && LOWER[k] as int == 'a' as int + k
  {
  }

  lemma LowerJoinsCases(a: char, b: char)
    ensures Lower(a) == Lower(b) <==> SameLetter(a, b)
  {
    Letters();
    if 'A' <= a <= 'Z' && b == Lower(a) {
      assert a == UPPER[a as int - 'A' as int] && b == LOWER[a as int - 'A' as int];
    }
    if 'A' <= b <= 'Z' && a == Lower(b) {
      assert b == UPPER[b as int - 'A' as int] && a == LOWER[b as int - 'A' as int];
    }
  }

  /** Lower-casing makes two texts equal exactly when they differ in the case of letters alone. */
  lemma CaseIsInvisible(v: string, w: string)
    ensures ToLower(v) == ToLower(w) <==> SameButForCase(v, w)
  {
    hide Lower, SameLetter;
    forall i | 0 <= i < |v| && i < |w|
      ensures Lower(v[i]) == Lower(w[i]) <==> SameLetter(v[i], w[i])
    {
      LowerJoinsCases(v[i], w[i]);
    }
    if ToLower(v) == ToLower(w) {
      assert forall i | 0 <= i < |v| :: Lower(v[i]) == ToLower(v)[i] == ToLower(w)[i] == Lower(w[i]);
    }
  }

  predicate MentionedAt(v: string, w: string, i: nat) {
    i + |w| <= |v| && SameButForCase(v[i..i + |w|], w)
  }

  /** `w` occurs in `v`, in whatever case. */
  ghost predicate Mentions(v: string, w: string) {
    exists i | 0 <= i <= |v| :: MentionedAt(v, w, i)
  }

  lemma ContainsAt(s: string, p: string, i: nat)
    requires i <= |s| - |p|
    ensures HasPrefix(s[i..], p) <==> s[i..i + |p|] == p
  {
    assert s[i..][..|p|] == s[i..i + |p|];
  }

  /** Looking for a lower-case word in a lower-cased text finds it in whatever case it was written. */
  lemma LowerMentions(v: string, w: string)
    requires IsLower(w)
    ensures Contains(ToLower(v), w) <==> Mentions(v, w)
  {
    hide SameButForCase, Lower;
    var l := ToLower(v);
    forall i | 0 <= i <= |v|
      ensures HasPrefix(l[i..], w) <==> MentionedAt(v, w, i)
    {
      if i + |w| <= |v| {
        ContainsAt(l, w, i);
        CaseIsInvisible(v[i..i + |w|], w);
        ToLowerIsIdentityExactlyOnLower(w);
        assert ToLower(v[i..i + |w|]) == l[i..i + |w|];
      }
    }
  }

  // ---- Trimming --------------------------------------------------------------------

  predicate AllIn(s: string, cut: set<char>) {
    forall i | 0 <= i < |s| :: s[i] in cut
  }

  lemma {:induction false} TrimLeftDrops(a: string, v: string, cut: set<char>)
    requires AllIn(a, cut)
    ensures TrimLeft(a + v, cut) == TrimLeft(v, cut)
  {
    if a == "" {
      assert a + v == v;
    } else {
      assert (a + v)[1..] == a[1..] + v;
      TrimLeftDrops(a[1..], v, cut);
    }
  }

  lemma {:induction false} TrimRightDrops(v: string, b: string, cut: set<char>)
    requires AllIn(b, cut)
    ensures TrimRight(v + b, cut) == TrimRight(v, cut)
  {
    if b == "" {
      assert v + b == v;
    } else {
      assert (v + b)[..|v + b| - 1] == v + b[..|b| - 1];
      TrimRightDrops(v, b[..|b| - 1], cut);
    }
  }

  lemma {:induction false} TrimLeftBefore(v: string, b: string, cut: set<char>)
    requires AllIn(b, cut)
    ensures TrimLeft(v + b, cut) == TrimLeft(v, cut) + b || (TrimLeft(v, cut) == "" && AllIn(TrimLeft(v + b, cut), cut))
  {
    if v == "" {
      assert v + b == b;
      TrimLeftIsASuffix(b, cut);
    } else if v[0] in cut {
      assert (v + b)[1..] == v[1..] + b;
      TrimLeftBefore(v[1..], b, cut);
    }
  }

  /** What is to be cut off is cut off, on either side, however much of it there is. */
  lemma TrimDrops(a: string, v: string, b: string, cut: set<char>)
    requires AllIn(a, cut) && AllIn(b, cut)
    ensures Trim(a + v + b, cut) == Trim(v, cut)
  {
    assert a + v + b == a + (v + b);
    TrimLeftDrops(a, v + b, cut);
    TrimLeftBefore(v, b, cut);
    if TrimLeft(v + b, cut) == TrimLeft(v, cut) + b {
      TrimRightDrops(TrimLeft(v, cut), b, cut);
    } else {
      assert "" + TrimLeft(v + b, cut) == TrimLeft(v + b, cut);
      TrimRightDrops("", TrimLeft(v + b, cut), cut);
    }
  }
}

/** Hostname spellings and the policy that admits them (config.go). */
module Hostnames {
  import opened Wrappers
  import opened Text

  const BRACKETS: set<char> := {'[', ']'}

  function LastIndex(s: string, c: char): (i: int)
    ensures -1 <= i < |s|
    ensures i >= 0 ==> s[i] == c
    ensures forall k | i < k < |s| :: s[k] != c
  {
    if s == "" then -1
    else if s[|s| - 1] == c then |s| - 1
    else LastIndex(s[..|s| - 1], c)
  }

  function Index(s: string, c: char): (i: int)
    ensures -1 <= i < |s|
    ensures i >= 0 ==> s[i] == c && forall k | 0 <= k < i :: s[k] != c
    ensures i < 0 ==> c !in s
  {
    if s == "" then -1
    else if s[0] == c then 0
    else var r := Index(s[1..], c); if r < 0 then -1 else r + 1
  }

  /** The host part of Go's `net.SplitHostPort`; None stands for each of its errors. */
  function SplitHostPort(hp: string): Option<string> {
    var i := LastIndex(hp, ':');
    if i < 0 then None
    else if hp[0] == '[' then
      var end := Index(hp, ']');
      if end < 0 || end + 1 == |hp| || end + 1 != i then None
      else if '[' in hp[1..] || ']' in hp[end + 1..] then None
      else Some(hp[1..end])
    else if ':' in hp[..i] || '[' in hp || ']' in hp then None
    else Some(hp[..i])
  }

  function TrimDot(s: string): string {
    if HasSuffix(s, ".") then s[..|s| - 1] else s
  }

  function NormalizeHostname(host: string): string {
    var h := ToLower(TrimSpace(host));
    if h == "" then ""
    else
      var s := SplitHostPort(h);
      TrimDot(Trim(if s.Some? then s.value else h, BRACKETS))
  }

  /** Lower-case, no surrounding space, no outer bracket, no trailing dot, not host:port. */
  predicate Settled(h: string) {
    && IsLower(h)
    && Bare(h, SPACES)
    && Bare(h, BRACKETS)
    && !HasSuffix(h, ".")
    && SplitHostPort(h).None?
  }

  lemma LowerTrimmed(h: string)
    ensures ToLower(TrimSpace(h)) == h <==> IsLower(h) && Bare(h, SPACES)
  {
    TrimIsIdentityExactlyOnBare(h, SPACES);
    ToLowerIsIdentityExactlyOnLower(TrimSpace(h));
    ToLowerIsIdentityExactlyOnLower(h);
    ToLowerKeepsBare(TrimSpace(h));
  }

  /** The settled spellings are exactly the ones normalisation leaves alone. */
  lemma SettledAreTheFixedPoints(h: string)
    ensures NormalizeHostname(h) == h <==> Settled(h)
  {
    LowerTrimmed(h);
    var l := ToLower(TrimSpace(h));
    TrimIsIdentityExactlyOnBare(h, SPACES);
    if l != "" {
      var s := SplitHostPort(l);
      var host := if s.Some? then s.value else l;
      assert |host| <= |l| <= |h|;
      TrimIsIdentityExactlyOnBare(host, BRACKETS);
    }
  }

  // ---- Plain host names ------------------------------------------------------------

  function Colons(s: string): nat {
    if s == "" then 0 else Colons(s[1..]) + (if s[0] == ':' then 1 else 0)
  }

  lemma {:induction false} ColonsConcat(a: string, b: string)
    ensures Colons(a + b) == Colons(a) + Colons(b)
  {
    if a == "" {
      assert a + b == b;
    } else {
      assert (a + b)[1..] == a[1..] + b;
      ColonsConcat(a[1..], b);
    }
  }

  lemma {:induction false} NoColons(s: string)
    ensures Colons(s) == 0 <==> ':' !in s
  {
    if s != "" {
      NoColons(s[1..]);
      assert s == [s[0]] + s[1..];
    }
  }

  predicate NormalForm(h: string) {
    && IsLower(h)
    && Bare(h, SPACES)
    && '[' !in h && ']' !in h
    && !HasSuffix(h, ".")
    && Colons(h) != 1
  }

  /** Without brackets, host and port come apart exactly when there is one colon. */
  lemma SplitsExactlyAtOneColon(h: string)
    requires '[' !in h && ']' !in h
    ensures SplitHostPort(h).Some? <==> Colons(h) == 1
  {
    var i := LastIndex(h, ':');
    NoColons(h);
    if i >= 0 {
      assert h == h[..i] + ([h[i]] + h[i + 1..]);
      ColonsConcat(h[..i], [h[i]] + h[i + 1..]);
      NoColons(h[..i]);
      NoColons(h[i + 1..]);
    }
  }

  /** A host in normal form is its own normal form. */
  lemma NormalFormIsSettled(h: string)
    requires NormalForm(h)
    ensures Settled(h) && NormalizeHostname(h) == h
  {
    SplitsExactlyAtOneColon(h);
    SettledAreTheFixedPoints(h);
  }

  // ---- Spellings of one host -------------------------------------------------------

  datatype Spelling =
    | Plain
    | Dotted
    | Port(port: string)
    | DottedPort(port: string)
    | Bracketed
    | BracketedPort(port: string)

  function Spell(h: string, sp: Spelling): string {
    match sp
    case Plain => h
    case Dotted => h + "."
    case Port(p) => h + ":" + p
    case DottedPort(p) => h + "." + ":" + p
    case Bracketed => "[" + h + "]"
    case BracketedPort(p) => "[" + h + "]" + ":" + p
  }

  predicate PortText(p: string) {
    forall i | 0 <= i < |p| :: '0' <= p[i] <= '9'
  }

  /** Ports go with brackets when the host itself holds colons. */
  predicate WellSpelled(h: string, sp: Spelling) {
    match sp
    case Plain => true
    case Dotted => true
    case Port(p) => PortText(p) && ':' !in h
    case DottedPort(p) => PortText(p) && ':' !in h
    case Bracketed => true
    case BracketedPort(p) => PortText(p)
  }

  /** `h:p` for a host without colons or brackets. */
  lemma SplitPlainPort(h: string, p: string)
    requires ':' !in h && '[' !in h && ']' !in h && PortText(p)
    ensures SplitHostPort(h + ":" + p) == Some(h)
  {
    var s := h + ":" + p;
    assert forall k | 0 <= k < |s| :: s[k] == if k < |h| then h[k] else if k == |h| then ':' else p[k - |h| - 1];
    var i := LastIndex(s, ':');
    assert s[|h|] == ':';
    assert i == |h|;
    assert s[..i] == h;
    assert '[' !in s && ']' !in s;
  }

  lemma SplitBracketedPort(h: string, p: string)
    requires '[' !in h && ']' !in h && PortText(p)
    ensures SplitHostPort("[" + h + "]" + ":" + p) == Some(h)
  {
    var s := "[" + h + "]" + ":" + p;
    assert forall k | 0 <= k < |s| ::
        s[k] == if k == 0 then '[' else if k <= |h| then h[k - 1] else if k == |h| + 1 then ']'
                else if k == |h| + 2 then ':' else p[k - |h| - 3];
    var i, end := LastIndex(s, ':'), Index(s, ']');
    assert s[|h| + 2] == ':' && i == |h| + 2;
    assert s[|h| + 1] == ']';
    assert forall k | 0 <= k <= |h| :: s[k] != ']';
    assert end == |h| + 1;
    assert s[1..end] == h;
    assert forall k | 1 <= k < |s| :: s[k] != '[';
    assert forall k | end + 1 <= k < |s| :: s[k] != ']';
  }

  lemma SplitBracketed(h: string)
    requires '[' !in h && ']' !in h
    ensures SplitHostPort("[" + h + "]") == None
  {
    var s := "[" + h + "]";
    assert s[|h| + 1] == ']';
    assert forall k | 0 <= k <= |h| :: s[k] != ']';
    var end := Index(s, ']');
    assert end == |h| + 1;
  }

  lemma TrimDotted(h: string)
    requires '[' !in h && ']' !in h && !HasSuffix(h, ".")
    ensures TrimDot(Trim(h, BRACKETS)) == h
    ensures TrimDot(Trim(h + ".", BRACKETS)) == h
  {
    TrimIsIdentityExactlyOnBare(h, BRACKETS);
    TrimIsIdentityExactlyOnBare(h + ".", BRACKETS);
    assert (h + ".")[|h|..] == ".";
    assert (h + ".")[..|h|] == h;
  }

  lemma TrimBracketed(h: string)
    requires '[' !in h && ']' !in h && !HasSuffix(h, ".")
    ensures TrimDot(Trim("[" + h + "]", BRACKETS)) == h
  {
    var s := "[" + h + "]";
    assert s[1..] == h + "]";
    if h == "" {
      assert s[1..] == "]" && "]"[1..] == "";
      assert TrimLeft("]", BRACKETS) == "";
      assert TrimLeft(s, BRACKETS) == "";
    } else {
      assert (h + "]")[0] == h[0] && h[|h| - 1] !in BRACKETS;
      assert TrimLeft(s, BRACKETS) == h + "]";
      assert (h + "]")[..|h|] == h;
      assert TrimRight(h + "]", BRACKETS) == TrimRight(h, BRACKETS) == h;
    }
  }

  lemma DottedColons(h: string)
    requires '[' !in h && ']' !in h && Colons(h) != 1
    ensures SplitHostPort(h + ".").None?
  {
    ColonsConcat(h, ".");
    assert Colons(".") == 0;
    SplitsExactlyAtOneColon(h + ".");
  }

  lemma SpellingNormalizes(h: string, sp: Spelling)
    requires NormalForm(h) && WellSpelled(h, sp) && Spell(h, sp) != ""
    ensures var s := SplitHostPort(Spell(h, sp));
            TrimDot(Trim(if s.Some? then s.value else Spell(h, sp), BRACKETS)) == h
  {
    TrimDotted(h);
    match sp
    case Plain => NormalFormIsSettled(h);
    case Dotted => DottedColons(h);
    case Port(p) => SplitPlainPort(h, p);
    case DottedPort(p) => SplitPlainPort(h + ".", p);
    case Bracketed => SplitBracketed(h); TrimBracketed(h);
    case BracketedPort(p) => SplitBracketedPort(h, p);
  }

  /**
   Any casing and any surrounding space of the plain, dotted, host:port and bracketed
   spellings of a host in normal form collapse to that host.
   */
  lemma SpellingsCollapse(h: string, sp: Spelling, written: string)
    requires NormalForm(h) && WellSpelled(h, sp) && ToLower(TrimSpace(written)) == Spell(h, sp)
    ensures NormalizeHostname(written) == h
  {
    if Spell(h, sp) != "" {
      SpellingNormalizes(h, sp);
    }
  }

  lemma SpellIsTrimmed(h: string, sp: Spelling)
    requires NormalForm(h) && WellSpelled(h, sp)
    ensures IsLower(Spell(h, sp)) && Bare(Spell(h, sp), SPACES)
  {
    var s := Spell(h, sp);
    if sp.Port? || sp.DottedPort? || sp.BracketedPort? {
      assert s[|s| - 1] == (if sp.port == "" then ':' else sp.port[|sp.port| - 1]);
    }
  }

  /** The same, of a text written in any letter case between any amounts of space. */
  lemma WrittenSpellingsCollapse(h: string, sp: Spelling, before: string, written: string, after: string)
    requires NormalForm(h) && WellSpelled(h, sp) && SameButForCase(written, Spell(h, sp))
    requires AllIn(before, SPACES) && AllIn(after, SPACES)
    ensures NormalizeHostname(before + written + after) == h
  {
    hide NormalForm, WellSpelled, Spell, SameButForCase, Trim, NormalizeHostname;
    var s := Spell(h, sp);
    SpellIsTrimmed(h, sp);
    CaseIsInvisible(written, s);
    ToLowerIsIdentityExactlyOnLower(s);
    ToLowerKeepsBare(written);
    TrimDrops(before, written, after, SPACES);
    TrimIsIdentityExactlyOnBare(written, SPACES);
    SpellingsCollapse(h, sp, before + written + after);
  }

  // ---- Normalising twice ------------------------------------------------------------

  predicate NoBrackets(s: string) {
    '[' !in s && ']' !in s
  }

  /** `[inner]:port`, with no other bracket and no colon in the port. */
  predicate BracketsAPort(w: string) {
    var end := Index(w, ']');
    && w != "" && w[0] == '[' && 0 <= end && end + 1 < |w| && w[end + 1] == ':'
    && '[' !in w[1..] && NoBrackets(w[end + 1..]) && ':' !in w[end + 2..]
  }

  /** What is left of a lower-case, trimmed text without its port and its outer brackets. */
  function HostText(w: string): string {
    if NoBrackets(w) then (if ':' in w && Colons(w) == 1 then w[..Index(w, ':')] else w)
    else if BracketsAPort(w) then w[1..Index(w, ']')]
    else Trim(w, BRACKETS)
  }

  /** Taking off one dot leaves no second dot, no outer space or bracket, and nothing that reads as a port. */
  predicate OnceIsEnough(g: string) {
    && !HasSuffix(g, "..")
    && Bare(TrimDot(g), SPACES) && Bare(TrimDot(g), BRACKETS)
    && (NoBrackets(g) ==> Colons(g) != 1)
  }

  /** The text a spelling is read as. */
  function Written(h: string): string {
    ToLower(TrimSpace(h))
  }

  lemma OneColonSplits(w: string)
    requires NoBrackets(w) && ':' in w && Colons(w) == 1
    ensures SplitHostPort(w) == Some(w[..Index(w, ':')])
  {
    SplitsExactlyAtOneColon(w);
    var i, l := Index(w, ':'), LastIndex(w, ':');
    assert forall k | 0 <= k < l :: w[..l][k] == w[k];
  }

  lemma BracketedSplits(w: string)
    requires !NoBrackets(w) && w != ""
    ensures SplitHostPort(w) == if BracketsAPort(w) then Some(w[1..Index(w, ']')]) else None
  {
    var i, end := LastIndex(w, ':'), Index(w, ']');
    if BracketsAPort(w) {
      assert w[end + 1] == ':';
      assert forall k | end + 2 <= k < |w| :: w[k] == w[end + 2..][k - end - 2];
    } else if w[0] == '[' && '[' !in w[1..] {
      assert forall k | 0 < k < |w| :: w[k] == w[1..][k - 1];
    }
  }

  lemma BracketedInner(w: string)
    requires BracketsAPort(w)
    ensures NoBrackets(w[1..Index(w, ']')])
  {
    var end := Index(w, ']');
    assert forall k | 0 <= k < end - 1 :: w[1..end][k] == w[k + 1] == w[1..][k];
  }

  /** Normalising takes one dot off the host text. */
  lemma NormalIsHostText(h: string)
    ensures NormalizeHostname(h) == TrimDot(HostText(Written(h)))
  {
    hide SplitHostPort, Trim;
    var w := Written(h);
    if w == "" {
      assert HostText("") == "";
    } else if NoBrackets(w) {
      SplitsExactlyAtOneColon(w);
      NoColons(w);
      if Colons(w) == 1 {
        OneColonSplits(w);
      }
      TrimIsIdentityExactlyOnBare(HostText(w), BRACKETS);
    } else {
      BracketedSplits(w);
      if BracketsAPort(w) {
        BracketedInner(w);
        TrimIsIdentityExactlyOnBare(HostText(w), BRACKETS);
      }
    }
  }

  lemma TrimIsLower(w: string)
    requires IsLower(w)
    ensures IsLower(Trim(w, BRACKETS))
  {
    hide TrimLeft, TrimRight;
    var left := TrimLeft(w, BRACKETS);
    TrimLeftIsASuffix(w, BRACKETS);
    assert IsLower(left);
    TrimRightIsAPrefix(left, BRACKETS);
  }

  /** The host text is a stretch of the written one. */
  lemma HostTextIsLower(h: string)
    ensures IsLower(HostText(Written(h)))
  {
    hide Trim, Colons, NoBrackets;
    var w := Written(h);
    ToLowerIsIdentityExactlyOnLower(TrimSpace(h));
    TrimIsLower(w);
  }

  lemma DotChangesNothingElse(g: string)
    ensures var z := TrimDot(g);
            && (HasSuffix(z, ".") <==> HasSuffix(g, "..")) && (NoBrackets(z) <==> NoBrackets(g))
            && Colons(z) == Colons(g)
            && (IsLower(g) ==> IsLower(z))
  {
    var z := TrimDot(g);
    if HasSuffix(g, ".") {
      assert g == z + "." by { assert g[|g| - 1..] == "."; }
      ColonsConcat(z, ".");
      assert Colons(".") == 0;
      if HasSuffix(z, ".") {
        assert z[|z| - 1..] == ".";
        assert g[|g| - 2..] == "..";
      }
    }
  }

  /**
   Normalising twice is normalising once exactly when the text, without its port and its
   outer brackets, ends in no second dot, and has no outer space or bracket and nothing
   that reads as a port once its dot is gone.
   */
  lemma TwiceIsOnceExactlyWhen(h: string)
    ensures NormalizeHostname(NormalizeHostname(h)) == NormalizeHostname(h) <==> OnceIsEnough(HostText(Written(h)))
  {
    hide NormalizeHostname, HostText, Written, SplitHostPort, Colons;
    var g := HostText(Written(h));
    var z := TrimDot(g);
    NormalIsHostText(h);
    HostTextIsLower(h);
    DotChangesNothingElse(g);
    SettledAreTheFixedPoints(z);
    if NoBrackets(z) {
      SplitsExactlyAtOneColon(z);
    } else {
      BracketedSplits(z);
    }
  }

  lemma NormalOfLowerTrimmed(w: string)
    requires w != "" && IsLower(w) && Bare(w, SPACES)
    ensures var s := SplitHostPort(w); NormalizeHostname(w) == TrimDot(Trim(if s.Some? then s.value else w, BRACKETS))
  {
    hide SplitHostPort, Trim, TrimDot;
    LowerTrimmed(w);
  }

  /** Of all the dots at the end, normalising takes one. */
  lemma OneDotIsTaken(g: string)
    requires g != "" && IsLower(g) && Bare(g, SPACES) && '[' !in g && ']' !in g && Colons(g) != 1
    ensures NormalizeHostname(g + ".") == g && Colons(g + ".") != 1
  {
    DottedColons(g);
    SplitsExactlyAtOneColon(g + ".");
    hide NormalizeHostname, SplitHostPort, Trim, Colons;
    NormalOfLowerTrimmed(g + ".");
    TrimIsIdentityExactlyOnBare(g + ".", BRACKETS);
    assert (g + ".")[|g|..] == "." && (g + ".")[..|g|] == g;
  }

  /** Of two dots at the end each pass takes one. */
  lemma RepeatedDotsAreNotSettled(h: string)
    requires NormalForm(h) && h != ""
    ensures NormalizeHostname(h + "..") == h + "." && NormalizeHostname(h + ".") == h
  {
    hide NormalizeHostname, Colons;
    OneDotIsTaken(h);
    OneDotIsTaken(h + ".");
    assert h + "." + "." == h + "..";
  }

  /** Of two nested ports each pass takes one. */
  lemma NestedPortsAreNotSettled(h: string, p: string, q: string)
    requires NormalForm(h) && h != "" && ':' !in h && PortText(p) && p != "" && PortText(q) && q != ""
    ensures NormalizeHostname("[" + (h + ":" + p) + "]" + ":" + q) == h + ":" + p && NormalizeHostname(h + ":" + p) == h
  {
    hide NormalizeHostname, SplitHostPort, Trim, Colons;
    var inner := h + ":" + p;
    var w := "[" + inner + "]" + ":" + q;
    assert inner[|inner| - 1] == p[|p| - 1] && inner[0] == h[0];
    assert w[|w| - 1] == q[|q| - 1] && w[0] == '[';
    NormalOfLowerTrimmed(inner);
    NormalOfLowerTrimmed(w);
    SplitPlainPort(h, p);
    SplitBracketedPort(inner, q);
    TrimIsIdentityExactlyOnBare(inner, BRACKETS);
    TrimIsIdentityExactlyOnBare(h, BRACKETS);
    assert inner[|inner| - 1..] == [p[|p| - 1]];
  }

  // ---- Policy ----------------------------------------------------------------------

  predicate Below(host: string, suffix: string)
    requires suffix != ""
  {
    HasSuffix(host, suffix) && host != suffix[1..]
  }

  /** A trimmed, lower-case allow-list entry against a host already normalised. */
  predicate EntryAdmits(a: string, host: string) {
    if HasPrefix(a, "*.") then Below(host, "." + NormalizeHostname(a[2..])) else NormalizeHostname(a) == host
  }

  predicate Admits(allowed: string, host: string) {
    EntryAdmits(ToLower(TrimSpace(allowed)), host)
  }

  method AllowsHostname(hostnames: seq<string>, host: string) returns (ok: bool)
    ensures ok <==> exists i | 0 <= i < |hostnames| :: Admits(hostnames[i], NormalizeHostname(host))
  {
    hide NormalizeHostname, ToLower, TrimSpace;
    var h := NormalizeHostname(host);
    for i := 0 to |hostnames|
      invariant forall k | 0 <= k < i :: !Admits(hostnames[k], h)
    {
      var a := ToLower(TrimSpace(hostnames[i]));
      if HasPrefix(a, "*.") {
        var suffix := "." + NormalizeHostname(a[2..]);
        if HasSuffix(h, suffix) && h != suffix[1..] {
          return true;
        }
        continue;
      }
      if NormalizeHostname(a) == h {
        return true;
      }
    }
    return false;
  }

  /** An allow-list entry without wildcard admits every host written as it is, settled or not. */
  lemma EntryAdmitsItsSpelling(h: string)
    requires !HasPrefix(Written(h), "*.")
    ensures Admits(h, NormalizeHostname(h))
  {
    hide SplitHostPort, Trim, TrimDot;
    var w := Written(h);
    TrimIsIdentityExactlyOnBare(h, SPACES);
    ToLowerKeepsBare(TrimSpace(h));
    ToLowerIsIdentityExactlyOnLower(TrimSpace(h));
    LowerTrimmed(w);
  }

  lemma WildcardIsTrimmed(d: string)
    requires IsLower(d) && Bare(d, SPACES) && d != ""
    ensures IsLower("*." + d) && Bare("*." + d, SPACES)
  {
    var a := "*." + d;
    forall i | 0 <= i < |a|
      ensures Lower(a[i]) == a[i]
    {
      if i >= 2 {
        assert a[i] == d[i - 2];
      }
    }
    assert a[|a| - 1] == d[|d| - 1] && a[0] == '*';
  }

  lemma WildcardEntry(d: string, host: string)
    requires NormalizeHostname(d) == d
    ensures EntryAdmits("*." + d, host) <==> |host| > |d| && HasSuffix(host, "." + d)
  {
    assert ("*." + d)[2..] == d;
    assert ("." + d)[1..] == d;
  }

  /** `*.d` admits exactly the hosts strictly longer than `d` that end in `.d`; never `d` itself. */
  lemma WildcardAdmitsExactlySubdomains(d: string, host: string)
    requires NormalForm(d) && d != ""
    ensures Admits("*." + d, host) <==> |host| > |d| && HasSuffix(host, "." + d)
  {
    WildcardIsTrimmed(d);
    NormalFormIsSettled(d);
    LowerTrimmed("*." + d);
    WildcardEntry(d, host);
  }

  /** An entry in normal form without wildcard admits exactly itself. */
  lemma ExactEntryAdmitsItself(a: string, host: string)
    requires NormalForm(a) && !HasPrefix(a, "*.")
    ensures Admits(a, host) <==> host == a
  {
    LowerTrimmed(a);
    NormalFormIsSettled(a);
  }

  /**
   Two spellings of one host agree at both ends: what the policy decides when a challenge
   is issued it decides for every spelling, and the stored name matches every spelling of
   it at site verification.
   */
  lemma AcceptedAtIssueAcceptedAtVerification(h: string, sp: Spelling, sp': Spelling, issued: string, expected: string,
                                              allowed: string)
    requires NormalForm(h) && WellSpelled(h, sp) && WellSpelled(h, sp')
    requires ToLower(TrimSpace(issued)) == Spell(h, sp) && ToLower(TrimSpace(expected)) == Spell(h, sp')
    ensures NormalizeHostname(expected) == NormalizeHostname(NormalizeHostname(issued))
    ensures Admits(allowed, NormalizeHostname(issued)) <==> Admits(allowed, NormalizeHostname(expected))
  {
    SpellingsCollapse(h, sp, issued);
    SpellingsCollapse(h, sp', expected);
    NormalFormIsSettled(h);
  }
}
