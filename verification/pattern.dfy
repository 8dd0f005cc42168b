/** The two fixed-width regular expressions of the order validators,
    `^[\da-zA-Z]{7}$` and `^[\da-zA-Z]{6}\.[\da-zA-Z]{3}$`, written as data,
    together with two ways of matching them: `ReMatch`, which is what
    Python's `re.match` does with a trailing `$`, and `FullMatch`, which
    anchors at the very end of the string. */
module Pattern {
  import opened Wrappers

  /** One element of a pattern: `Alnums(n)` is `[\da-zA-Z]{n}`, `Literal(c)`
      is the single character `c` (the escaped `\.` of the security pattern). */
  datatype Atom = Alnums(count: nat) | Literal(c: char)

  /** The character class `[\da-zA-Z]`, read as ASCII. */
  predicate IsAsciiAlnum(c: char)
  {
    ('0' <= c <= '9') || ('a' <= c <= 'z') || ('A' <= c <= 'Z')
  }

  /** `[\da-zA-Z]{7}`: the intervenant identifier. */
  const IntervenantPattern: seq<Atom> := [Alnums(7)]

  /** `[\da-zA-Z]{6}\.[\da-zA-Z]{3}`: the security identifier. */
  const SecurityPattern: seq<Atom> := [Alnums(6), Literal('.'), Alnums(3)]

  function AtomWidth(a: Atom): nat
  {
    match a
    case Alnums(n) => n
    case Literal(_) => 1
  }

  /** Number of characters any match of `p` consumes. */
  function Width(p: seq<Atom>): nat
  {
    if p == [] then 0 else AtomWidth(p[0]) + Width(p[1..])
  }

  /** Does the atom accept the piece `w` (of exactly its own width)? */
  predicate AtomAccepts(a: Atom, w: string)
  {
    match a
    case Alnums(n) => |w| == n && forall i :: 0 <= i < |w| ==> IsAsciiAlnum(w[i])
    case Literal(c) => w == [c]
  }

  /** Matches `p` at the start of `s`, as the regular-expression engine does
      after `^`; gives the position where the match ends. */
  function MatchPrefix(p: seq<Atom>, s: string): (r: Option<nat>)
    ensures r.Some? ==> r.value == Width(p) && r.value <= |s|
  {
    if p == [] then Some(0)
    else
      var w := AtomWidth(p[0]);
      if w <= |s| && AtomAccepts(p[0], s[..w]) then
        match MatchPrefix(p[1..], s[w..])
        case Some(k) => Some(w + k)
        case None => None
      else None
  }

  /** `re.match('^' + p + '$', s)` as Python evaluates it: `$` holds at the
      end of the string and also just before a newline that ends it. */
  predicate ReMatch(p: seq<Atom>, s: string)
    ensures ReMatch(p, s) ==> |s| == Width(p) || |s| == Width(p) + 1
  {
    match MatchPrefix(p, s)
    case Some(k) => k == |s| || (k == |s| - 1 && s[k] == '\n')
    case None => false
  }

  /** The whole string and nothing else matches `p`. */
  predicate FullMatch(p: seq<Atom>, s: string)
    ensures FullMatch(p, s) ==> |s| == Width(p)
  {
    MatchPrefix(p, s) == Some(|s|)
  }

  /** No atom of `p` can consume a newline. */
  predicate NewlineFree(p: seq<Atom>)
  {
    forall i :: 0 <= i < |p| ==> p[i] != Literal('\n')
  }

  /** Matching a prefix only looks at the first `Width(p)` characters, so
      appending anything after a match does not change it. */
  lemma {:induction false} MatchPrefixExtends(p: seq<Atom>, s: string, t: string)
    requires MatchPrefix(p, s).Some?
    ensures MatchPrefix(p, s + t) == MatchPrefix(p, s)
  {
    if p != [] {
      var w := AtomWidth(p[0]);
      assert (s + t)[..w] == s[..w];
      assert (s + t)[w..] == s[w..] + t;
      MatchPrefixExtends(p[1..], s[w..], t);
    }
  }

  /** A match of a newline-free pattern never ends on a newline: the last
      character it consumes belongs to an atom that refuses `'\n'`. */
  lemma {:induction false} MatchPrefixAvoidsNewline(p: seq<Atom>, s: string, i: nat)
    requires NewlineFree(p)
    requires MatchPrefix(p, s).Some? && i < Width(p)
    ensures s[i] != '\n'
  {
    var w := AtomWidth(p[0]);
    assert AtomAccepts(p[0], s[..w]);
    if i < w {
      assert s[..w][i] == s[i];
    } else {
      assert NewlineFree(p[1..]) by {
        forall j | 0 <= j < |p[1..]| ensures p[1..][j] != Literal('\n') {
          assert p[1..][j] == p[j + 1];
        }
      }
      MatchPrefixAvoidsNewline(p[1..], s[w..], i - w);
    }
  }

  /** What `re.match` with `$` accepts, for a pattern that cannot consume a
      newline: exactly the full matches, plus the full matches followed by
      one newline. */
  lemma ReMatchIsFullMatchOrNewline(p: seq<Atom>, s: string)
    requires NewlineFree(p)
    ensures ReMatch(p, s) <==>
      FullMatch(p, s) || (0 < |s| && s[|s| - 1] == '\n' && FullMatch(p, s[..|s| - 1]))
  {
    if 0 < |s| && s[|s| - 1] == '\n' {
      var u := s[..|s| - 1];
      assert s == u + ['\n'];
      if FullMatch(p, u) {
        MatchPrefixExtends(p, u, ['\n']);
      }
      if MatchPrefix(p, s).Some? && MatchPrefix(p, s).value == |s| - 1 {
        assert MatchPrefix(p, u + ['\n']).Some?;
        if MatchPrefix(p, u).None? {
          // MatchPrefix(p, s) only reads s[..Width(p)] == u
          PrefixDetermines(p, u, ['\n']);
        }
        MatchPrefixExtends(p, u, ['\n']);
      }
      if MatchPrefix(p, s) == Some(|s|) {
        MatchPrefixAvoidsNewline(p, s, |s| - 1);
      }
    }
  }

  /** Converse of `MatchPrefixExtends`: a match on `s + t` that ends inside
      `s` is already a match on `s`. */
  lemma {:induction false} PrefixDetermines(p: seq<Atom>, s: string, t: string)
    requires MatchPrefix(p, s + t).Some? && Width(p) <= |s|
    ensures MatchPrefix(p, s).Some?
  {
    if p != [] {
      var w := AtomWidth(p[0]);
      assert (s + t)[..w] == s[..w];
      assert (s + t)[w..] == s[w..] + t;
      PrefixDetermines(p[1..], s[w..], t);
    }
  }

  /** The intervenant pattern, read off: exactly seven ASCII letters or digits. */
  lemma IntervenantShape(s: string)
    ensures FullMatch(IntervenantPattern, s) <==>
      |s| == 7 && forall i :: 0 <= i < |s| ==> IsAsciiAlnum(s[i])
  {
    var p := IntervenantPattern;
    assert p[1..] == [];
    if 7 <= |s| && AtomAccepts(p[0], s[..7]) {
      assert MatchPrefix(p[1..], s[7..]) == Some(0);
      assert MatchPrefix(p, s) == Some(7);
    } else {
      assert MatchPrefix(p, s) == None;
    }
    if |s| == 7 {
      assert s[..7] == s;
    }
  }

  /** The security pattern, read off: ten characters, a dot at index 6 and an
      ASCII letter or digit everywhere else. */
  lemma SecurityShape(s: string)
    ensures FullMatch(SecurityPattern, s) <==>
      |s| == 10 && s[6] == '.' && forall i :: 0 <= i < |s| && i != 6 ==> IsAsciiAlnum(s[i])
  {
    var p := SecurityPattern;
    var q, r := p[1..], p[1..][1..];
    assert q == [Literal('.'), Alnums(3)];
    assert r == [Alnums(3)];
    assert r[1..] == [];
    if FullMatch(p, s) {
      // the three atoms each accept their own piece of s
      assert |s| == 10;
      var s1 := s[6..];
      var s2 := s1[1..];
      assert AtomAccepts(p[0], s[..6]);
      assert MatchPrefix(q, s1).Some?;
      assert AtomAccepts(q[0], s1[..1]);
      assert MatchPrefix(r, s2).Some?;
      assert AtomAccepts(r[0], s2[..3]);
      assert s1[..1] == [s[6]];
      assert forall i :: 0 <= i < 6 ==> s[..6][i] == s[i];
      assert forall i :: 0 <= i < 3 ==> s2[..3][i] == s[i + 7];
    }
    if |s| == 10 && s[6] == '.' && forall i :: 0 <= i < |s| && i != 6 ==> IsAsciiAlnum(s[i]) {
      var s1 := s[6..];
      var s2 := s1[1..];
      assert AtomAccepts(p[0], s[..6]);
      assert s1[..1] == [s[6]];
      assert forall i :: 0 <= i < 3 ==> s2[..3][i] == s[i + 7];
      assert AtomAccepts(r[0], s2[..3]);
      assert MatchPrefix(r[1..], s2[3..]) == Some(0);
      assert MatchPrefix(r, s2) == Some(3);
      assert MatchPrefix(q, s1) == Some(4);
      assert MatchPrefix(p, s) == Some(10);
    }
  }

  /** The discrepancy `ReMatch` lets through: a well-formed identifier with a
      newline after it passes both Python patterns although it is one
      character too long for either. */
  lemma TrailingNewlineAccepted()
    ensures ReMatch(IntervenantPattern, "0001091\n")
    ensures !FullMatch(IntervenantPattern, "0001091\n")
    ensures ReMatch(SecurityPattern, "507170.000\n")
    ensures !FullMatch(SecurityPattern, "507170.000\n")
  {
    var a := "0001091\n";
    var b := "507170.000\n";
    IntervenantShape(a[..7]);
    assert a[..7] == "0001091";
    SecurityShape(b[..10]);
    assert b[..10] == "507170.000";
    ReMatchIsFullMatchOrNewline(IntervenantPattern, a);
    ReMatchIsFullMatchOrNewline(SecurityPattern, b);
    IntervenantShape(a);
    SecurityShape(b);
  }
}
