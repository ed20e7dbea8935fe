/** Exactly which strings the scanner of algorithm names (algboss.c) accepts, and as what. */
module NameGrammar {
  import opened Options
  import opened NameScanner

  // ---------------------------------------------------------------- parentheses

  function Nest(c: char): int {
    if c == '(' then 1 else if c == ')' then -1 else 0
  }

  /** How much deeper than at `i` the nesting is at `j`. */
  function Level(t: string, i: nat, j: nat): int
    requires i <= j <= |t|
    decreases j - i
  {
    if i == j then 0 else Nest(t[i]) + Level(t, i + 1, j)
  }

  /** The character at `k` is the first behind `i` that takes the nesting more than `d` down. */
  ghost predicate ClosesAt(t: string, i: nat, d: nat, k: nat) {
    && i <= k < |t| && d + Level(t, i, k + 1) == -1
    && forall j | i <= j <= k :: d + Level(t, i, j) >= 0
  }

  lemma {:induction false} ClosingExact(s: string, i: nat, d: nat, k: nat)
    requires i <= |s|
    ensures Closing(s, i, d) == Some(k) <==> ClosesAt(s, i, d, k)
    decreases |s| - i
  {
    if i < |s| {
      var d1 := d + Nest(s[i]);
      if d1 >= 0 {
        ClosingExact(s, i + 1, d1, k);
        ClosesLater(s, i, d, d1, k);
      } else {
        assert Level(s, i, i + 1) == -1;
      }
    }
  }

  lemma ClosesLater(s: string, i: nat, d: nat, d1: nat, k: nat)
    requires i < |s| && d1 == d + Nest(s[i])
    ensures ClosesAt(s, i, d, k) <==> ClosesAt(s, i + 1, d1, k)
  {
    var i1 := i + 1;
    if ClosesAt(s, i, d, k) {
      assert d + Level(s, i, i1) == d1;
      forall j | i1 <= j <= k ensures d1 + Level(s, i1, j) >= 0 { assert d + Level(s, i, j) >= 0; }
    }
    if ClosesAt(s, i1, d1, k) {
      forall j | i <= j <= k ensures d + Level(s, i, j) >= 0 { assert i < j ==> d1 + Level(s, i1, j) >= 0; }
    }
  }

  lemma {:induction false} LevelWithin(s: string, i: nat, e: nat, a: nat, b: nat)
    requires a <= b && i + b <= e <= |s|
    ensures Level(s[i..e], a, b) == Level(s, i + a, i + b)
    decreases b - a
  {
    if a < b { LevelWithin(s, i, e, a + 1, b); }
  }

  lemma ClosesWithin(s: string, i: nat, e: nat, a: nat, k: nat)
    requires a <= k < e - i && i <= e <= |s|
    ensures ClosesAt(s[i..e], a, 0, k) <==> ClosesAt(s, i + a, 0, i + k)
  {
    var t, b := s[i..e], i + a;
    LevelWithin(s, i, e, a, k + 1);
    forall j | a <= j <= k ensures Level(t, a, j) == Level(s, b, i + j) { LevelWithin(s, i, e, a, j); }
    if ClosesAt(t, a, 0, k) {
      forall j | b <= j <= i + k ensures Level(s, b, j) >= 0 { assert Level(t, a, j - i) >= 0; }
    }
    if ClosesAt(s, b, 0, i + k) {
      forall j | a <= j <= k ensures Level(t, a, j) >= 0 { assert Level(s, b, i + j) >= 0; }
    }
  }

  // ---------------------------------------------------------------- arguments

  /** Word characters up to `w`, and from there on one group in parentheses. */
  ghost predicate IsApplied(t: string, w: nat) {
    && w < |t| && (forall k | 0 <= k < w :: IsWord(t[k])) && t[w] == '(' && ClosesAt(t, w + 1, 0, |t| - 1)
  }

  /** A name, numeric exactly if it is all digits, or a name or nothing applied to a group. */
  ghost predicate IsArg(a: Attr) {
    || (IsName(a.text) && a.numeric == AllDigits(a.text))
    || (!a.numeric && exists w: nat :: IsApplied(a.text, w))
  }

  lemma {:induction false} WordEndIs(s: string, i: nat)
    requires i <= |s|
    ensures var e := WordEnd(s, i); (forall k | i <= k < e :: IsWord(s[k])) && (e < |s| ==> !IsWord(s[e]))
    decreases |s| - i
  {
    if i < |s| && IsWord(s[i]) { WordEndIs(s, i + 1); }
  }

  lemma {:induction false} WordEndAt(s: string, i: nat, e: nat)
    requires i <= e <= |s| && (forall k | i <= k < e :: IsWord(s[k])) && (e < |s| ==> !IsWord(s[e]))
    ensures WordEnd(s, i) == e
    decreases e - i
  {
    if i < e { WordEndAt(s, i + 1, e); }
  }

  lemma ArgSound(s: string, i: nat)
    requires i <= |s| && ArgEnd(s, i).Some?
    ensures var a := ArgEnd(s, i).value; IsArg(Attr(s[i..a.0], a.1))
  {
    var w, a := WordEnd(s, i), ArgEnd(s, i).value;
    var t := s[i..a.0];
    WordEndIs(s, i);
    if w < |s| && s[w] == '(' {
      ClosingExact(s, w + 1, 0, a.0 - 1);
      ClosesWithin(s, i, a.0, w + 1 - i, a.0 - 1 - i);
      assert IsApplied(t, w - i);
    }
  }

  lemma NameComplete(s: string, i: nat, e: nat)
    requires i <= e < |s| && IsName(s[i..e]) && s[e] in {',', ')'}
    ensures ArgEnd(s, i) == Some((e, AllDigits(s[i..e])))
  {
    hide AllDigits, Closing;
    var t := s[i..e];
    forall k | i <= k < e ensures IsWord(s[k]) { assert t[k - i] in t; }
    WordEndAt(s, i, e);
  }

  lemma AppliedComplete(s: string, i: nat, e: nat, w: nat)
    requires i <= e <= |s| && IsApplied(s[i..e], w)
    ensures ArgEnd(s, i) == Some((e, false))
  {
    hide AllDigits, Closing, Level, IsWord;
    var t := s[i..e];
    forall k | i <= k < i + w ensures IsWord(s[k]) { assert t[k - i] == s[k]; }
    OpensNoWord();
    WordEndAt(s, i, i + w);
    ClosesWithin(s, i, e, w + 1, |t| - 1);
    ClosingExact(s, i + w + 1, 0, e - 1);
  }

  lemma OpensNoWord()
    ensures !IsWord('(')
  {}

  lemma ArgComplete(s: string, i: nat, e: nat, numeric: bool)
    requires i <= e < |s| && IsArg(Attr(s[i..e], numeric)) && s[e] in {',', ')'}
    ensures ArgEnd(s, i) == Some((e, numeric))
  {
    hide ArgEnd, IsApplied, IsName, AllDigits;
    if IsName(s[i..e]) && numeric == AllDigits(s[i..e]) {
      NameComplete(s, i, e);
    } else {
      var w: nat :| IsApplied(s[i..e], w);
      AppliedComplete(s, i, e, w);
    }
  }

  // ---------------------------------------------------------------- names

  /** The texts of the arguments with commas between them. */
  function Joined(a: seq<Attr>): string {
    if a == [] then "" else if |a| == 1 then a[0].text else a[0].text + "," + Joined(a[1..])
  }

  /** The arguments, with the closing parenthesis, stand at `i`. */
  ghost predicate ArgsAt(s: string, i: nat, n: nat, a: seq<Attr>) {
    a != [] && n + |a| < CRYPTO_MAX_ATTRS && At(s, i, Joined(a) + ")") && forall k | 0 <= k < |a| :: IsArg(a[k])
  }

  lemma {:induction false} ArgsSound(s: string, i: nat, n: nat)
    requires i <= |s| && ScanArgs(s, i, n).Some?
    ensures ArgsAt(s, i, n, ScanArgs(s, i, n).value)
    decreases |s| - i
  {
    hide ArgEnd, IsArg;
    var e, a := ArgEnd(s, i).value.0, ScanArgs(s, i, n).value;
    ArgSound(s, i);
    if s[e] == ')' {
      assert s[i..e + 1] == s[i..e] + ")";
    } else {
      ArgsSound(s, e + 1, n + 1);
      var rest := ScanArgs(s, e + 1, n + 1).value;
      assert a[1..] == rest;
      JoinAt(s, i, e, Joined(rest) + ")");
      assert Joined(a) + ")" == s[i..e] + "," + (Joined(rest) + ")");
    }
  }

  lemma JoinAt(s: string, i: nat, e: nat, t: string)
    requires i <= e < |s| && s[e] == ',' && At(s, e + 1, t)
    ensures At(s, i, s[i..e] + "," + t)
  {
    assert s[i..e + 1 + |t|] == s[i..e] + [s[e]] + s[e + 1..e + 1 + |t|];
  }

  lemma {:induction false} ArgsComplete(s: string, i: nat, n: nat, a: seq<Attr>)
    requires ArgsAt(s, i, n, a)
    ensures ScanArgs(s, i, n) == Some(a)
    decreases |a|
  {
    hide ArgEnd, IsArg, ScanArgs, At;
    var text, numeric := a[0].text, a[0].numeric;
    var e := i + |text|;
    FirstArg(s, i, a);
    ArgComplete(s, i, e, numeric);
    ScanStep(s, i, n, e, text, numeric);
    if |a| == 1 {
      assert a == [a[0]];
    } else {
      ArgsComplete(s, e + 1, n + 1, a[1..]);
      assert a == [a[0]] + a[1..];
    }
  }

  /** Where the first argument stands, and the others. */
  lemma FirstArg(s: string, i: nat, a: seq<Attr>)
    requires a != [] && At(s, i, Joined(a) + ")") && IsArg(a[0])
    ensures var e := i + |a[0].text|;
            && i < e < |s| && s[i..e] == a[0].text && s[e] == (if |a| == 1 then ')' else ',')
            && (|a| > 1 ==> At(s, e + 1, Joined(a[1..]) + ")"))
  {
    hide IsArg, Joined, At;
    var text := a[0].text;
    NotEmptyArg(a[0]);
    var tail := JoinedParts(a);
    AtBoth(s, i, text, tail);
    TextAt(s, i, text);
    if |a| == 1 {
      AtChar(s, i + |text|, ')');
    } else {
      AtBoth(s, i + |text|, ",", Joined(a[1..]) + ")");
      AtChar(s, i + |text|, ',');
    }
  }

  /** What follows the first argument. */
  lemma JoinedParts(a: seq<Attr>) returns (tail: string)
    requires a != []
    ensures Joined(a) + ")" == a[0].text + tail
    ensures tail == if |a| == 1 then ")" else "," + (Joined(a[1..]) + ")")
  {
    tail := if |a| == 1 then ")" else "," + (Joined(a[1..]) + ")");
  }

  lemma TextAt(s: string, i: nat, t: string)
    requires At(s, i, t)
    ensures i + |t| <= |s| && s[i..i + |t|] == t
  {}

  lemma NotEmptyArg(a: Attr)
    requires IsArg(a)
    ensures a.text != ""
  {}

  /** The string begins with a template, which is a word, and its arguments in parentheses. */
  ghost predicate Denotes(s: string, p: Parsed) {
    && IsName(p.template) && p.attrs != [] && |p.attrs| < CRYPTO_MAX_ATTRS
    && (forall k | 0 <= k < |p.attrs| :: IsArg(p.attrs[k]))
    && p.template + "(" + Joined(p.attrs) + ")" <= s
  }

  lemma DenotesAt(s: string, p: Parsed)
    ensures Denotes(s, p) <==>
            && IsName(p.template) && At(s, 0, p.template) && |p.template| < |s| && s[|p.template|] == '('
            && ArgsAt(s, |p.template| + 1, 0, p.attrs)
  {
    hide IsArg, IsName, Joined, At;
    var t, u := p.template, Joined(p.attrs) + ")";
    assert t + "(" + Joined(p.attrs) + ")" == t + ("(" + u);
    StartsWith(s, t + ("(" + u));
    AtBoth(s, 0, t, "(" + u);
    AtBoth(s, |t|, "(", u);
    AtChar(s, |t|, '(');
  }

  lemma StartsWith(s: string, t: string)
    ensures t <= s <==> At(s, 0, t)
  {}

  lemma AtBoth(s: string, i: nat, a: string, b: string)
    ensures At(s, i, a + b) <==> At(s, i, a) && At(s, i + |a|, b)
  {
    if At(s, i, a + b) { AtParts(s, i, a, b); }
    if At(s, i, a) && At(s, i + |a|, b) {
      assert s[i..i + |a| + |b|] == s[i..i + |a|] + s[i + |a|..i + |a| + |b|];
    }
  }

  lemma AtChar(s: string, i: nat, c: char)
    ensures At(s, i, [c]) <==> i < |s| && s[i] == c
  {}

  /** The scanner accepts exactly the strings that begin with a template and its arguments, and takes
      them apart in the one way there is. */
  lemma ScanExact(s: string, p: Parsed)
    ensures Scan(s) == Some(p) <==> Denotes(s, p)
  {
    hide ScanArgs, Denotes;
    DenotesAt(s, p);
    var w := WordEnd(s, 0);
    WordEndIs(s, 0);
    if Scan(s) == Some(p) {
      ArgsSound(s, w + 1, 0);
    }
    if Denotes(s, p) {
      WordStops(s, 0, p.template);
      ArgsComplete(s, |p.template| + 1, 0, p.attrs);
    }
  }
}
