/** Environment references in the config (internal/config/config.go): `${NAME}` is replaced by the
    value of a set variable and left as written otherwise. */
module Expansion {
  import opened Client

  type Variables = map<string, string>

  // ----- one string -----

  /** The position of the first closing brace, or the length if there is none. */
  function FirstClose(s: string): (n: nat)
    ensures n <= |s|
    ensures '}' !in s[..n]
    ensures n < |s| ==> s[n] == '}'
  {
    if s == [] || s[0] == '}' then 0
    else
      var n := 1 + FirstClose(s[1..]);
      assert s[..n] == [s[0]] + s[1..][..n - 1];
      n
  }

  /** A match of `\$\{([^}]+)}` begins at the head of `s`. */
  predicate Opens(s: string) {
    && |s| > 3 && s[0] == '$' && s[1] == '{' && s[2] != '}'
    && FirstClose(s[2..]) < |s| - 2
  }

  function NameAt(s: string): (name: string)
    requires Opens(s)
    ensures name != "" && '}' !in name
    ensures |name| + 3 <= |s| && s == "${" + name + "}" + s[|name| + 3..]
  {
    var n := FirstClose(s[2..]);
    s[2..][..n]
  }

  function Valued(vars: Variables, name: string): string {
    if name in vars then vars[name] else "${" + name + "}"
  }

  /** Replace every match, leftmost first. */
  function Expand(vars: Variables, s: string): string
    decreases |s|
  {
    if s == [] then []
    else if Opens(s) then
      var name := NameAt(s);
      Valued(vars, name) + Expand(vars, s[|name| + 3..])
    else [s[0]] + Expand(vars, s[1..])
  }

  // ----- a single pass -----

  datatype Token = Literal(c: char) | Reference(name: string)

  /** How the string reads, whatever the variables hold. */
  function Tokens(s: string): seq<Token>
    decreases |s|
  {
    if s == [] then []
    else if Opens(s) then
      var name := NameAt(s);
      [Reference(name)] + Tokens(s[|name| + 3..])
    else [Literal(s[0])] + Tokens(s[1..])
  }

  function Render(vars: Variables, tokens: seq<Token>): string {
    if tokens == [] then []
    else
      (match tokens[0]
       case Literal(c) => [c]
       case Reference(name) => Valued(vars, name))
      + Render(vars, tokens[1..])
  }

  // ----- what the reading means -----

  /** The pattern `\$\{([^}]+)}` matches `s[i..j]`. */
  predicate IsMatch(s: string, i: int, j: int) {
    && 0 <= i && i + 4 <= j <= |s|
    && s[i] == '$' && s[i + 1] == '{' && s[j - 1] == '}'
    && '}' !in s[i + 2..j - 1]
  }

  function Width(t: Token): nat {
    match t
    case Literal(_) => 1
    case Reference(name) => |name| + 3
  }

  /** Where the k-th token begins. */
  function Offset(tokens: seq<Token>, k: nat): nat
    requires k <= |tokens|
  {
    if k == 0 then 0 else Width(tokens[0]) + Offset(tokens[1..], k - 1)
  }

  /** The token stands for the text at `at`: a match that names it, or a character where no match begins. */
  predicate ReadsAt(s: string, at: nat, t: Token) {
    match t
    case Literal(c) => at < |s| && s[at] == c && forall j :: at <= j <= |s| ==> !IsMatch(s, at, j)
    case Reference(name) => IsMatch(s, at, at + |name| + 3) && s[at + 2..at + 2 + |name|] == name
  }

  /** The tokens cover the string from left to right, and every match that begins between tokens is one. */
  predicate IsReading(s: string, tokens: seq<Token>) {
    && Offset(tokens, |tokens|) == |s|
    && forall k :: 0 <= k < |tokens| ==> ReadsAt(s, Offset(tokens, k), tokens[k])
  }

  lemma MatchIsUnique(s: string, j: int)
    ensures IsMatch(s, 0, j) <==> Opens(s) && j == |NameAt(s)| + 3
  {
    if IsMatch(s, 0, j) {
      var name := s[2..j - 1];
      assert s[2..] == name + "}" + s[j..];
      FirstCloseOf(name, s[j..]);
      assert s[2] == name[0] && name[0] in name;
    }
    if Opens(s) && j == |NameAt(s)| + 3 {
      var name := NameAt(s);
      assert s[2..j - 1] == name;
    }
  }

  lemma MatchShifts(s: string, w: nat, i: int, j: int)
    requires w <= |s| && 0 <= i
    ensures IsMatch(s, w + i, w + j) <==> IsMatch(s[w..], i, j)
  {
    if 0 <= i && i + 4 <= j <= |s| - w {
      assert s[w..][i + 2..j - 1] == s[w + i + 2..w + j - 1];
    }
  }

  lemma ReadsShifts(s: string, w: nat, at: nat, t: Token)
    requires w <= |s|
    ensures ReadsAt(s, w + at, t) <==> ReadsAt(s[w..], at, t)
  {
    match t {
      case Literal(_) =>
        if j :| at <= j <= |s| - w && IsMatch(s[w..], at, j) {
          MatchShifts(s, w, at, j);
        }
        var from := w + at;
        if j :| from <= j <= |s| && IsMatch(s, from, j) {
          MatchShifts(s, w, at, j - w);
        }
      case Reference(name) =>
        MatchShifts(s, w, at, at + |name| + 3);
        if IsMatch(s, w + at, w + at + |name| + 3) {
          assert s[w..][at + 2..at + 2 + |name|] == s[w + at + 2..w + at + 2 + |name|];
        }
    }
  }

  lemma HeadIsUnique(s: string, t: Token)
    requires s != []
    ensures ReadsAt(s, 0, t) <==> t == Tokens(s)[0]
  {
    forall j
      ensures IsMatch(s, 0, j) <==> Opens(s) && j == |NameAt(s)| + 3
    {
      MatchIsUnique(s, j);
    }
    if Opens(s) {
      var name := NameAt(s);
      assert IsMatch(s, 0, |name| + 3) && s[2..2 + |name|] == name;
    }
  }

  /** A reading is a token for the head and a reading of the rest. */
  lemma ReadingUnfolds(s: string, tokens: seq<Token>)
    requires tokens != []
    ensures IsReading(s, tokens) <==>
            ReadsAt(s, 0, tokens[0]) && IsReading(s[Width(tokens[0])..], tokens[1..])
  {
    var w, rest := Width(tokens[0]), tokens[1..];
    if ReadsAt(s, 0, tokens[0]) {
      forall k | 0 <= k < |rest|
        ensures Offset(tokens, k + 1) == w + Offset(rest, k)
        ensures ReadsAt(s, Offset(tokens, k + 1), tokens[k + 1]) <==> ReadsAt(s[w..], Offset(rest, k), rest[k])
      {
        ReadsShifts(s, w, Offset(rest, k), rest[k]);
      }
      if IsReading(s[w..], rest) {
        forall k | 0 <= k < |tokens|
          ensures ReadsAt(s, Offset(tokens, k), tokens[k])
        {
          if k > 0 {
            assert ReadsAt(s[w..], Offset(rest, k - 1), rest[k - 1]);
          }
        }
      }
    } else {
      assert Offset(tokens, 0) == 0;
    }
  }

  /** The tokens are the one reading of the string, leftmost matches first. */
  lemma {:induction false} TokensAreTheReading(s: string, tokens: seq<Token>)
    ensures IsReading(s, tokens) <==> tokens == Tokens(s)
    decreases |s|
  {
    if s != [] && tokens != [] {
      ReadingUnfolds(s, tokens);
      HeadIsUnique(s, tokens[0]);
      if tokens[0] == Tokens(s)[0] {
        TokensAreTheReading(s[Width(tokens[0])..], tokens[1..]);
        assert tokens == [tokens[0]] + tokens[1..];
      }
    } else if tokens != [] {
      assert Offset(tokens, |tokens|) > 0;
    }
  }

  /** Expansion substitutes into the one reading of the input, which the values have no part in: none is
      ever rescanned. */
  lemma ExpansionIsOnePass(vars: Variables, s: string, tokens: seq<Token>)
    requires IsReading(s, tokens)
    ensures Expand(vars, s) == Render(vars, tokens)
  {
    TokensAreTheReading(s, tokens);
    ExpandRenders(vars, s);
  }

  lemma {:induction false} ExpandRenders(vars: Variables, s: string)
    ensures Expand(vars, s) == Render(vars, Tokens(s))
    decreases |s|
  {
    if s != [] {
      if Opens(s) {
        ExpandRenders(vars, s[|NameAt(s)| + 3..]);
      } else {
        ExpandRenders(vars, s[1..]);
      }
    }
  }

  /** A string none of whose references is set stays as it is. */
  lemma UnsetStaysVerbatim(vars: Variables, s: string)
    requires forall name :: Reference(name) in Tokens(s) ==> name !in vars
    ensures Expand(vars, s) == s
  {
    ExpandRenders(vars, s);
    ExpandRenders(map[], s);
    UnsetRendersAlike(vars, Tokens(s));
    NothingSetNothingChanged(s);
  }

  lemma {:induction false} UnsetRendersAlike(vars: Variables, tokens: seq<Token>)
    requires forall name :: Reference(name) in tokens ==> name !in vars
    ensures Render(vars, tokens) == Render(map[], tokens)
  {
    if tokens != [] {
      assert tokens[0] in tokens;
      UnsetRendersAlike(vars, tokens[1..]);
    }
  }

  lemma {:induction false} NothingSetNothingChanged(s: string)
    ensures Expand(map[], s) == s
    decreases |s|
  {
    if s != [] {
      if Opens(s) {
        NothingSetNothingChanged(s[|NameAt(s)| + 3..]);
      } else {
        NothingSetNothingChanged(s[1..]);
        assert s == [s[0]] + s[1..];
      }
    }
  }

  // ----- idempotence -----

  predicate Plain(value: string) {
    value != "" && '$' !in value && '{' !in value && '}' !in value
  }

  /** Every set value is non-empty and free of `$`, `{` and `}`. */
  predicate PlainValues(vars: Variables) {
    forall name :: name in vars ==> Plain(vars[name])
  }

  /** No match begins inside text without a dollar sign. */
  lemma {:induction false} SkipsPlainText(vars: Variables, text: string, rest: string)
    requires '$' !in text
    ensures Expand(vars, text + rest) == text + Expand(vars, rest)
  {
    if text == [] {
      assert text + rest == rest;
    } else {
      var whole := text + rest;
      assert whole[0] == text[0] != '$';
      assert whole[1..] == text[1..] + rest;
      SkipsPlainText(vars, text[1..], rest);
      assert text == [text[0]] + text[1..];
    }
  }

  lemma {:induction false} FirstCloseOf(a: string, b: string)
    requires '}' !in a
    ensures FirstClose(a + "}" + b) == |a|
  {
    var s := a + "}" + b;
    if a != [] {
      assert s[1..] == a[1..] + "}" + b;
      FirstCloseOf(a[1..], b);
    }
  }

  /** A reference in front of any text is read as that reference. */
  lemma ReadsReference(vars: Variables, name: string, rest: string)
    requires name != "" && '}' !in name
    ensures Expand(vars, "${" + name + "}" + rest) == Valued(vars, name) + Expand(vars, rest)
  {
    var s := "${" + name + "}" + rest;
    assert s[2..] == name + "}" + rest;
    FirstCloseOf(name, rest);
    assert s[2] == name[0];
    assert Opens(s) && NameAt(s) == name;
    assert s[|name| + 3..] == rest;
  }

  /** A set reference gives way to its value, and what follows is expanded by itself. */
  lemma ReferenceIsReplaced(vars: Variables, before: string, name: string, rest: string)
    requires '$' !in before && name != "" && '}' !in name
    ensures Expand(vars, before + ("${" + name + "}" + rest)) ==
            before + ((if name in vars then vars[name] else "${" + name + "}") + Expand(vars, rest))
  {
    ReadsReference(vars, name, rest);
    SkipsPlainText(vars, before, "${" + name + "}" + rest);
  }

  lemma {:induction false} NothingClosesNothingOpens(vars: Variables, s: string)
    requires '}' !in s
    ensures !Opens(s) && Expand(vars, s) == s
  {
    if s != [] {
      NothingClosesNothingOpens(vars, s[1..]);
      assert s == [s[0]] + s[1..];
    }
  }

  /** A brace cannot come to the front that was not there before. */
  lemma HeadAfterExpansion(vars: Variables, s: string)
    requires PlainValues(vars) && s != []
    ensures
      var e := Expand(vars, s);
      && e != [] && (e[0] == '{' <==> s[0] == '{')
      && (s[0] == '{' ==> e == ['{'] + Expand(vars, s[1..]))
      && (s[0] == '}' ==> e[0] == '}')
  {
  }

  /** A dollar sign that opens nothing before expansion opens nothing after it. */
  lemma LiteralStaysLiteral(vars: Variables, s: string)
    requires PlainValues(vars) && s != [] && !Opens(s)
    ensures !Opens([s[0]] + Expand(vars, s[1..]))
  {
    var rest := s[1..];
    var e := [s[0]] + Expand(vars, rest);
    if s[0] == '$' && rest != [] {
      HeadAfterExpansion(vars, rest);
      if rest[0] == '{' {
        if '}' !in s {
          NothingClosesNothingOpens(vars, rest);
          NothingClosesNothingOpens(vars, s);
          assert e == s;
        } else {
          OnlyEmptyBraces(s);
          HeadAfterExpansion(vars, rest[1..]);
          assert e[2] == '}';
        }
      }
    }
  }

  lemma OnlyEmptyBraces(s: string)
    requires |s| > 1 && s[0] == '$' && s[1] == '{' && '}' in s && !Opens(s)
    ensures |s| > 2 && s[2] == '}'
  {
  }

  /** Expanding twice is expanding once, when every set value is non-empty and free of `$`, `{`, `}`. */
  lemma {:induction false} ExpansionIsIdempotent(vars: Variables, s: string)
    requires PlainValues(vars)
    ensures Expand(vars, Expand(vars, s)) == Expand(vars, s)
    decreases |s|
  {
    if s != [] {
      if Opens(s) {
        var name := NameAt(s);
        var rest := s[|name| + 3..];
        ExpansionIsIdempotent(vars, rest);
        if name in vars {
          SkipsPlainText(vars, vars[name], Expand(vars, rest));
        } else {
          ReadsReference(vars, name, Expand(vars, rest));
        }
      } else {
        ExpansionIsIdempotent(vars, s[1..]);
        LiteralStaysLiteral(vars, s);
        var e := [s[0]] + Expand(vars, s[1..]);
        assert e[1..] == Expand(vars, s[1..]);
      }
    }
  }

  /** An empty value can join a dollar sign to a brace: plainness without non-emptiness is not enough. */
  lemma EmptyValueBreaksIdempotence()
    ensures
      var vars := map["A" := "", "B" := "b"];
      && Expand(vars, "$${A}{B}") == "${B}"
      && Expand(vars, "${B}") == "b"
  {
    var vars := map["A" := "", "B" := "b"];
    EmptyValueJoins(vars);
    assert "${B}" == "${" + "B" + "}" + "";
    ReadsReference(vars, "B", "");
  }

  lemma EmptyValueJoins(vars: Variables)
    requires "A" in vars && vars["A"] == ""
    ensures Expand(vars, "$${A}{B}") == "${B}"
  {
    var s := "$${A}{B}";
    assert !Opens(s);
    assert s[1..] == "${" + "A" + "}" + "{B}";
    ReadsReference(vars, "A", "{B}");
    SkipsPlainText(vars, "{B}", "");
    assert "{B}" + "" == "{B}";
  }

  // ----- maps -----

  /** A map is walked in no particular order: any arrangement of its keys may come up. */
  predicate IsOrder(m: Labels, order: seq<string>) {
    multiset(order) == multiset(m.Keys) && forall k :: k in order ==> k in m
  }

  /** Later keys overwrite earlier ones. */
  function ExpandInOrder(vars: Variables, m: Labels, order: seq<string>): Labels
    requires forall k :: k in order ==> k in m
  {
    if order == [] then map[]
    else
      var init, k := order[..|order| - 1], order[|order| - 1];
      ExpandInOrder(vars, m, init)[Expand(vars, k) := Expand(vars, m[k])]
  }

  /** The keys of `order` are those of `m` no longer pending, each once. */
  predicate IsPartialOrder(m: Labels, pending: set<string>, order: seq<string>) {
    && pending <= m.Keys
    && multiset(order) == multiset(m.Keys - pending)
    && forall k :: k in order ==> k in m
  }

  lemma VisitNext(vars: Variables, m: Labels, pending: set<string>, order: seq<string>, k: string)
    requires IsPartialOrder(m, pending, order) && k in pending
    ensures IsPartialOrder(m, pending - {k}, order + [k])
    ensures ExpandInOrder(vars, m, order + [k]) ==
            ExpandInOrder(vars, m, order)[Expand(vars, k) := Expand(vars, m[k])]
  {
  }

  method ExpandMap(vars: Variables, m: Labels) returns (out: Labels)
    ensures exists order :: IsOrder(m, order) && out == ExpandInOrder(vars, m, order)
  {
    out := map[];
    ghost var order: seq<string> := [];
    var pending := m.Keys;
    while pending != {}
      invariant IsPartialOrder(m, pending, order)
      invariant out == ExpandInOrder(vars, m, order)
      decreases pending
    {
      var k :| k in pending;
      out := out[Expand(vars, k) := Expand(vars, m[k])];
      VisitNext(vars, m, pending, order, k);
      order, pending := order + [k], pending - {k};
    }
    assert m.Keys - {} == m.Keys;
    assert IsOrder(m, order);
  }

  /** No two keys expand to the same key with different values. */
  predicate NoClash(vars: Variables, m: Labels) {
    forall j, k :: j in m && k in m && Expand(vars, j) == Expand(vars, k) ==>
      Expand(vars, m[j]) == Expand(vars, m[k])
  }

  lemma {:induction false} ExpandedEntries(vars: Variables, m: Labels, order: seq<string>)
    requires forall k :: k in order ==> k in m
    ensures
      var out := ExpandInOrder(vars, m, order);
      && (forall k :: k in order ==> Expand(vars, k) in out)
      && (forall x :: x in out ==>
            exists k :: k in order && Expand(vars, k) == x && out[x] == Expand(vars, m[k]))
  {
    if order != [] {
      var init, last := order[..|order| - 1], order[|order| - 1];
      ExpandedEntries(vars, m, init);
      assert order == init + [last];
      var out := ExpandInOrder(vars, m, order);
      forall x | x in out
        ensures exists k :: k in order && Expand(vars, k) == x && out[x] == Expand(vars, m[k])
      {
        if x == Expand(vars, last) {
          assert last in order;
        } else {
          assert x in ExpandInOrder(vars, m, init);
          var k :| k in init && Expand(vars, k) == x && ExpandInOrder(vars, m, init)[x] == Expand(vars, m[k]);
          assert k in order;
        }
      }
    }
  }

  lemma OrderMembers(m: Labels, order: seq<string>)
    requires multiset(order) == multiset(m.Keys)
    ensures forall k :: k in order <==> k in m
  {
    forall k
      ensures k in order <==> k in m
    {
      assert k in order <==> k in multiset(order);
      assert k in m <==> k in multiset(m.Keys);
    }
  }

  lemma EntryOf(vars: Variables, m: Labels, order: seq<string>, k: string)
    requires NoClash(vars, m) && IsOrder(m, order) && k in m
    ensures
      var out := ExpandInOrder(vars, m, order);
      Expand(vars, k) in out && out[Expand(vars, k)] == Expand(vars, m[k])
  {
    OrderMembers(m, order);
    ExpandedEntries(vars, m, order);
    var x, out := Expand(vars, k), ExpandInOrder(vars, m, order);
    var j :| j in order && Expand(vars, j) == x && out[x] == Expand(vars, m[j]);
  }

  lemma SubsumesOrder(vars: Variables, m: Labels, a: seq<string>, b: seq<string>, x: string)
    requires NoClash(vars, m) && IsOrder(m, a) && IsOrder(m, b)
    requires x in ExpandInOrder(vars, m, a)
    ensures x in ExpandInOrder(vars, m, b) && ExpandInOrder(vars, m, a)[x] == ExpandInOrder(vars, m, b)[x]
  {
    ExpandedEntries(vars, m, a);
    var k :| k in a && Expand(vars, k) == x && ExpandInOrder(vars, m, a)[x] == Expand(vars, m[k]);
    EntryOf(vars, m, b, k);
  }

  /** Without a clash the walk's order does not matter. */
  lemma OrderDoesNotMatter(vars: Variables, m: Labels, a: seq<string>, b: seq<string>)
    requires NoClash(vars, m) && IsOrder(m, a) && IsOrder(m, b)
    ensures ExpandInOrder(vars, m, a) == ExpandInOrder(vars, m, b)
  {
    var p, q := ExpandInOrder(vars, m, a), ExpandInOrder(vars, m, b);
    forall x
      ensures x in p <==> x in q
      ensures x in p ==> p[x] == q[x]
    {
      if x in p {
        SubsumesOrder(vars, m, a, b, x);
      } else if x in q {
        SubsumesOrder(vars, m, b, a, x);
      }
    }
    assert p == q;
  }

  lemma {:induction false} SomeOrder(keys: set<string>) returns (order: seq<string>)
    ensures multiset(order) == multiset(keys)
  {
    if keys == {} {
      order := [];
    } else {
      var k :| k in keys;
      order := SomeOrder(keys - {k});
      assert (keys - {k}) + {k} == keys;
      order := order + [k];
    }
  }

  /** With a clash, the last of the two to come up wins. */
  lemma ClashShows(vars: Variables, m: Labels, k: string) returns (order: seq<string>)
    requires k in m
    ensures IsOrder(m, order)
    ensures
      var out := ExpandInOrder(vars, m, order);
      Expand(vars, k) in out && out[Expand(vars, k)] == Expand(vars, m[k])
  {
    var rest := SomeOrder(m.Keys - {k});
    order := rest + [k];
    assert (m.Keys - {k}) + {k} == m.Keys;
    OrderMembers(m, order);
    assert order[..|order| - 1] == rest;
  }

  ghost predicate SameForAllOrders(vars: Variables, m: Labels) {
    forall a, b :: IsOrder(m, a) && IsOrder(m, b) ==>
      ExpandInOrder(vars, m, a) == ExpandInOrder(vars, m, b)
  }

  /** Map expansion is independent of iteration order exactly when no two keys clash. */
  lemma MapExpansionIsDeterministic(vars: Variables, m: Labels)
    ensures SameForAllOrders(vars, m) <==> NoClash(vars, m)
  {
    if NoClash(vars, m) {
      forall a, b | IsOrder(m, a) && IsOrder(m, b)
        ensures ExpandInOrder(vars, m, a) == ExpandInOrder(vars, m, b)
      {
        OrderDoesNotMatter(vars, m, a, b);
      }
    }
    if SameForAllOrders(vars, m) {
      forall j, k | j in m && k in m && Expand(vars, j) == Expand(vars, k)
        ensures Expand(vars, m[j]) == Expand(vars, m[k])
      {
        var a := ClashShows(vars, m, j);
        var b := ClashShows(vars, m, k);
        assert ExpandInOrder(vars, m, a) == ExpandInOrder(vars, m, b);
      }
    }
  }
}
