/** The names of crypto algorithms (algboss.c): the scanner that takes a name apart into a template
    and its arguments, against the way names are printed (algapi.c, authenc.c). */
module NameScanner {
  import opened Options

  /** include/linux/crypto.h, line 494. */
  const CRYPTO_MAX_ATTRS := 32

  predicate IsDigit(c: char) {
    '0' <= c <= '9'
  }

  /** A letter by lib/ctype.c, in Latin-1. */
  predicate IsLetter(c: char) {
    || 'a' <= c <= 'z' || 'A' <= c <= 'Z'
    || ('\U{C0}' <= c <= '\U{FF}' && c != '\U{D7}' && c != '\U{F7}')
  }

  /** isalnum, or one of the two other characters of a word. */
  predicate IsWord(c: char) {
    IsDigit(c) || IsLetter(c) || c == '-' || c == '_'
  }

  // ---------------------------------------------------------------- names as they are printed

  /** A plain name, or a template applied to one or more arguments. */
  datatype Term = Word(w: string) | App(f: string, args: Args)
  datatype Args = One(t: Term) | More(t: Term, rest: Args)

  function Print(t: Term): string {
    match t
    case Word(w) => w
    case App(f, args) => f + "(" + PrintArgs(args) + ")"
  }

  function PrintArgs(a: Args): string {
    match a
    case One(t) => Print(t)
    case More(t, rest) => Print(t) + "," + PrintArgs(rest)
  }

  predicate IsName(w: string) {
    w != "" && forall c | c in w :: IsWord(c)
  }

  predicate WellFormed(t: Term) {
    match t
    case Word(w) => IsName(w)
    case App(f, args) => IsName(f) && WellFormedArgs(args)
  }

  predicate WellFormedArgs(a: Args) {
    match a
    case One(t) => WellFormed(t)
    case More(t, rest) => WellFormed(t) && WellFormedArgs(rest)
  }

  function Count(a: Args): nat {
    match a
    case One(_) => 1
    case More(_, rest) => 1 + Count(rest)
  }

  /** An argument as the scanner records it. */
  datatype Attr = Attr(text: string, numeric: bool)

  predicate AllDigits(w: string) {
    forall c | c in w :: IsDigit(c)
  }

  function AttrOf(t: Term): Attr {
    Attr(Print(t), t.Word? && AllDigits(t.w))
  }

  function Attrs(a: Args): seq<Attr> {
    match a
    case One(t) => [AttrOf(t)]
    case More(t, rest) => [AttrOf(t)] + Attrs(rest)
  }

  // ---------------------------------------------------------------- the scanner

  /** The end of the word that begins at `i`. */
  function WordEnd(s: string, i: nat): (e: nat)
    requires i <= |s|
    ensures i <= e <= |s|
    decreases |s| - i
  {
    if i < |s| && IsWord(s[i]) then WordEnd(s, i + 1) else i
  }

  /** The closing parenthesis for one that is open at `i`, with `depth` more open ones inside. */
  function Closing(s: string, i: nat, depth: nat): (r: Option<nat>)
    requires i <= |s|
    ensures r.Some? ==> i <= r.value < |s| && s[r.value] == ')'
    decreases |s| - i
  {
    if i == |s| then None
    else if s[i] == '(' then Closing(s, i + 1, depth + 1)
    else if s[i] == ')' then (if depth == 0 then Some(i) else Closing(s, i + 1, depth - 1))
    else Closing(s, i + 1, depth)
  }

  /** The end of the argument that begins at `i`, and whether it is numeric. */
  function ArgEnd(s: string, i: nat): (r: Option<(nat, bool)>)
    requires i <= |s|
    ensures r.Some? ==> i < r.value.0 <= |s|
  {
    var w := WordEnd(s, i);
    if w < |s| && s[w] == '(' then
      var c := Closing(s, w + 1, 0);
      if c == None then None else Some((c.value + 1, false))
    else if w == i then None
    else Some((w, AllDigits(s[i..w])))
  }

  /** The arguments from `i` on, when `n` have been seen. */
  function ScanArgs(s: string, i: nat, n: nat): Option<seq<Attr>>
    requires i <= |s|
    decreases |s| - i
  {
    var a := ArgEnd(s, i);
    if a == None then None
    else
      var e := a.value.0;
      var attr := Attr(s[i..e], a.value.1);
      if n + 1 >= CRYPTO_MAX_ATTRS then None
      else if e < |s| && s[e] == ')' then Some([attr])
      else if e < |s| && s[e] == ',' then
        var rest := ScanArgs(s, e + 1, n + 1);
        if rest == None then None else Some([attr] + rest.value)
      else None
  }

  datatype Parsed = Parsed(template: string, attrs: seq<Attr>)

  function Scan(s: string): Option<Parsed> {
    var w := WordEnd(s, 0);
    if w == 0 || w == |s| || s[w] != '(' then None
    else
      var a := ScanArgs(s, w + 1, 0);
      if a == None then None else Some(Parsed(s[..w], a.value))
  }

  // ---------------------------------------------------------------- the scanner inverts the printer

  /** The text stands at `i`. */
  ghost predicate At(s: string, i: nat, t: string) {
    i + |t| <= |s| && s[i..i + |t|] == t
  }

  lemma AtParts(s: string, i: nat, a: string, b: string)
    requires At(s, i, a + b)
    ensures At(s, i, a) && At(s, i + |a|, b) && i + |a| + |b| <= |s|
  {
    var t := s[i..i + |a + b|];
    assert s[i..i + |a|] == t[..|a|] && s[i + |a|..i + |a| + |b|] == t[|a|..];
  }

  /** A word followed by something else ends where it ends. */
  lemma {:induction false} WordStops(s: string, i: nat, w: string)
    requires At(s, i, w) && (forall c | c in w :: IsWord(c)) && i + |w| < |s| && !IsWord(s[i + |w|])
    ensures WordEnd(s, i) == i + |w|
    decreases |w|
  {
    if w != "" {
      assert w == [w[0]] + w[1..];
      AtParts(s, i, [w[0]], w[1..]);
      CharAt(s, i, w[0]);
      assert w[0] in w;
      WordStops(s, i + 1, w[1..]);
    }
  }

  /** The search for a closing parenthesis passes over a word. */
  lemma {:induction false} PassWord(s: string, i: nat, w: string, d: nat)
    requires At(s, i, w) && forall c | c in w :: IsWord(c)
    ensures Closing(s, i, d) == Closing(s, i + |w|, d)
    decreases |w|
  {
    if w != "" {
      assert w == [w[0]] + w[1..];
      AtParts(s, i, [w[0]], w[1..]);
      CharAt(s, i, w[0]);
      assert w[0] in w;
      PassWord(s, i + 1, w[1..], d);
    }
  }

  lemma CharAt(s: string, i: nat, c: char)
    requires At(s, i, [c])
    ensures i < |s| && s[i] == c
  {}

  /** Where the parts of an application stand. */
  lemma AppAt(s: string, i: nat, f: string, args: Args)
    requires At(s, i, Print(App(f, args)))
    ensures var k := i + |f| + 1 + |PrintArgs(args)|;
            && k < |s| && At(s, i, f) && At(s, i + |f| + 1, PrintArgs(args)) && s[i + |f|] == '(' && s[k] == ')'
  {
    hide At;
    var inside := PrintArgs(args);
    AtParts(s, i, f + "(" + inside, ")");
    AtParts(s, i, f + "(", inside);
    AtParts(s, i, f, "(");
    CharAt(s, i + |f|, '(');
    CharAt(s, i + |f| + 1 + |inside|, ')');
  }

  /** Where the first of several arguments stands, and the others. */
  lemma MoreAt(s: string, i: nat, t: Term, rest: Args, tail: string)
    requires At(s, i, PrintArgs(More(t, rest)) + tail)
    ensures var k := i + |Print(t)|;
            && k < |s| && At(s, i, Print(t)) && s[k] == ',' && At(s, k + 1, PrintArgs(rest) + tail)
  {
    hide At;
    var p, q := Print(t), PrintArgs(rest);
    assert PrintArgs(More(t, rest)) + tail == (p + ",") + (q + tail);
    AtParts(s, i, p + ",", q + tail);
    AtParts(s, i, p, ",");
    CharAt(s, i + |p|, ',');
  }

  /** And over everything that has been printed. */
  lemma {:induction false} PassTerm(s: string, i: nat, t: Term, d: nat)
    requires WellFormed(t) && At(s, i, Print(t))
    ensures Closing(s, i, d) == Closing(s, i + |Print(t)|, d)
    decreases t
  {
    match t
    case Word(w) => PassWord(s, i, w, d);
    case App(f, args) =>
      AppAt(s, i, f, args);
      PassWord(s, i, f, d);
      PassArgs(s, i + |f| + 1, args, d + 1);
  }

  lemma {:induction false} PassArgs(s: string, i: nat, a: Args, d: nat)
    requires WellFormedArgs(a) && At(s, i, PrintArgs(a))
    ensures Closing(s, i, d) == Closing(s, i + |PrintArgs(a)|, d)
    decreases a
  {
    match a
    case One(t) => PassTerm(s, i, t, d);
    case More(t, rest) =>
      assert PrintArgs(a) + "" == PrintArgs(a) && PrintArgs(rest) + "" == PrintArgs(rest);
      MoreAt(s, i, t, rest, "");
      PassTerm(s, i, t, d);
      PassArgs(s, i + |Print(t)| + 1, rest, d);
  }

  lemma ArgIsWord(s: string, i: nat, w: string)
    requires IsName(w) && At(s, i, w) && i + |w| < |s| && s[i + |w|] in {',', ')'}
    ensures ArgEnd(s, i) == Some((i + |w|, AllDigits(w)))
  {
    hide WordEnd, Closing, AllDigits;
    WordStops(s, i, w);
  }

  lemma ArgIsApp(s: string, i: nat, f: string, args: Args)
    requires IsName(f) && WellFormedArgs(args) && At(s, i, Print(App(f, args)))
    ensures ArgEnd(s, i) == Some((i + |Print(App(f, args))|, false))
  {
    hide WordEnd, AllDigits, At, IsName;
    AppAt(s, i, f, args);
    FirstWord(s, i, f);
    PassArgs(s, i + |f| + 1, args, 0);
  }

  lemma FirstWord(s: string, i: nat, f: string)
    requires IsName(f) && At(s, i, f) && i + |f| < |s| && s[i + |f|] == '('
    ensures WordEnd(s, i) == i + |f|
  {
    WordStops(s, i, f);
  }

  /** A printed argument that is followed by a comma or a parenthesis is taken whole, and is numeric
      exactly if it is all digits. */
  lemma ArgIsTerm(s: string, i: nat, t: Term)
    requires WellFormed(t) && At(s, i, Print(t)) && i + |Print(t)| < |s| && s[i + |Print(t)|] in {',', ')'}
    ensures ArgEnd(s, i) == Some((i + |Print(t)|, AttrOf(t).numeric))
  {
    hide ArgEnd;
    match t
    case Word(w) => ArgIsWord(s, i, w);
    case App(f, args) => ArgIsApp(s, i, f, args);
  }

  /** One turn of the scan, when the argument is known. */
  lemma ScanStep(s: string, i: nat, n: nat, e: nat, text: string, numeric: bool)
    requires i < e < |s| && ArgEnd(s, i) == Some((e, numeric)) && s[i..e] == text && n + 1 < CRYPTO_MAX_ATTRS
    ensures s[e] == ')' ==> ScanArgs(s, i, n) == Some([Attr(text, numeric)])
    ensures var rest := ScanArgs(s, e + 1, n + 1);
            s[e] == ',' ==> ScanArgs(s, i, n) == if rest == None then None else Some([Attr(text, numeric)] + rest.value)
  {}

  lemma {:induction false} ArgsAreTerms(s: string, i: nat, a: Args, n: nat)
    requires WellFormedArgs(a) && At(s, i, PrintArgs(a) + ")") && n + Count(a) < CRYPTO_MAX_ATTRS
    ensures ScanArgs(s, i, n) == Some(Attrs(a))
    decreases a
  {
    hide ArgEnd, ScanArgs, IsWord, Print, WellFormed;
    match a
    case One(t) =>
      AtParts(s, i, PrintArgs(a), ")");
      CharAt(s, i + |PrintArgs(a)|, ')');
      ArgIsTerm(s, i, t);
      NotEmpty(t);
      ScanStep(s, i, n, i + |Print(t)|, Print(t), AttrOf(t).numeric);
    case More(t, rest) =>
      MoreAt(s, i, t, rest, ")");
      ArgIsTerm(s, i, t);
      NotEmpty(t);
      ScanStep(s, i, n, i + |Print(t)|, Print(t), AttrOf(t).numeric);
      ArgsAreTerms(s, i + |Print(t)| + 1, rest, n + 1);
  }

  lemma NotEmpty(t: Term)
    requires WellFormed(t)
    ensures Print(t) != ""
  {}

  /** A printed name is taken apart into its template and exactly its arguments; what follows the
      last parenthesis does not matter. */
  lemma ScanInvertsPrint(f: string, args: Args, rest: string)
    requires WellFormed(App(f, args)) && Count(args) < CRYPTO_MAX_ATTRS
    ensures Scan(Print(App(f, args)) + rest) == Some(Parsed(f, Attrs(args)))
  {
    hide ScanArgs, WordEnd, IsWord, Attrs, PrintArgs;
    var p, inside := Print(App(f, args)), PrintArgs(args);
    var s := p + rest;
    assert At(s, 0, p) && s[..|f|] == f;
    AppAt(s, 0, f, args);
    FirstWord(s, 0, f);
    assert p[|f| + 1..] == inside + ")";
    assert s[|f| + 1..|p|] == p[|f| + 1..];
    ArgsAreTerms(s, |f| + 1, args, 0);
  }

  // ---------------------------------------------------------------- the loops

  /** The character at `i`, or the end of the string. */
  function CharOf(s: string, i: nat): char {
    if i < |s| then s[i] else '\0'
  }

  method ScanWord(s: string, i: nat) returns (p: nat, notnum: bool)
    requires i <= |s|
    ensures p == WordEnd(s, i) && notnum == !AllDigits(s[i..p])
  {
    p, notnum := i, false;
    while IsWord(CharOf(s, p))
      invariant i <= p <= |s| && WordEnd(s, p) == WordEnd(s, i) && notnum == !AllDigits(s[i..p])
      decreases |s| - p
    {
      assert s[i..p + 1] == s[i..p] + [s[p]];
      notnum := notnum || !IsDigit(s[p]);
      p := p + 1;
    }
  }

  /** The inner loop: the parenthesis that closes the one at `i`. */
  method ScanNested(s: string, i: nat) returns (p: nat, ok: bool)
    requires i < |s|
    ensures var c := Closing(s, i + 1, 0); ok == c.Some? && (ok ==> p == c.value)
  {
    p := i;
    var recursion := 0;
    while true
      invariant i <= p < |s| && recursion >= 0 && Closing(s, p + 1, recursion) == Closing(s, i + 1, 0)
      decreases |s| - p
    {
      p := p + 1;
      if p == |s| {
        return p, false;
      }
      if s[p] == '(' {
        recursion := recursion + 1;
      } else if s[p] == ')' {
        if recursion == 0 {
          return p, true;
        }
        recursion := recursion - 1;
      }
    }
  }

  /** One argument. */
  method ScanArg(s: string, i: nat) returns (p: nat, numeric: bool, ok: bool)
    requires i <= |s|
    ensures var a := ArgEnd(s, i); ok == a.Some? && (ok ==> (p, numeric) == a.value)
  {
    var notnum;
    p, notnum := ScanWord(s, i);
    if CharOf(s, p) == '(' {
      p, ok := ScanNested(s, p);
      if !ok {
        return p, false, false;
      }
      notnum := true;
      p := p + 1;
    }
    return p, !notnum, p != i;
  }

  /** Arguments already taken, followed by the rest if that can be taken too. */
  ghost function Followed(taken: seq<Attr>, rest: Option<seq<Attr>>): Option<seq<Attr>> {
    if rest == None then None else Some(taken + rest.value)
  }

  lemma FollowedByOne(taken: seq<Attr>, a: Attr, rest: Option<seq<Attr>>)
    ensures Followed(taken, Followed([a], rest)) == Followed(taken + [a], rest)
    ensures Followed(taken, Some([a])) == Some(taken + [a])
    ensures Followed([], rest) == rest
  {
    if rest.Some? {
      assert [] + rest.value == rest.value;
      assert taken + ([a] + rest.value) == taken + [a] + rest.value;
    }
  }

  /** The outer loop over the arguments. */
  method ScanArguments(s: string, first: nat) returns (r: Option<seq<Attr>>)
    requires first <= |s|
    ensures r == ScanArgs(s, first, 0)
  {
    hide ArgEnd;
    var attrs, name := [], first;
    FollowedByOne(attrs, Attr("", false), ScanArgs(s, first, 0));
    while true
      invariant name <= |s| && ScanArgs(s, first, 0) == Followed(attrs, ScanArgs(s, name, |attrs|))
      decreases |s| - name
    {
      var e, numeric, ok := ScanArg(s, name);
      if !ok {
        return None;
      }
      FollowedByOne(attrs, Attr(s[name..e], numeric), if CharOf(s, e) == ',' then ScanArgs(s, e + 1, |attrs| + 1) else None);
      attrs := attrs + [Attr(s[name..e], numeric)];
      if |attrs| >= CRYPTO_MAX_ATTRS {
        return None;
      }
      if CharOf(s, e) == ')' {
        return Some(attrs);
      }
      if CharOf(s, e) != ',' {
        return None;
      }
      name := e + 1;
    }
  }

  /** The part of cryptomgr_schedule_probe that takes the name apart. */
  method ScanName(s: string) returns (r: Option<Parsed>)
    ensures r == Scan(s)
  {
    hide ScanArgs, WordEnd;
    var p, notnum := ScanWord(s, 0);
    if p == 0 || CharOf(s, p) != '(' {
      return None;
    }
    var attrs := ScanArguments(s, p + 1);
    return if attrs == None then None else Some(Parsed(s[..p], attrs.value));
  }
}
