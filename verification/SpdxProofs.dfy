/** What lexing, parsing and printing licence expressions promise each other. */
module SpdxProofs {
  import opened Wrappers
  import opened Text
  import opened Spdx

  /** The trees the parser can build: usable names, and at least two items under And and Or. */
  predicate WellFormed(e: Expr)
    decreases e, 1
  {
    match e
    case Id(name) => GoodName(name)
    case With(base, exception) => GoodName(base) && GoodName(exception)
    case And(items) => |items| >= 2 && AllWellFormed(items)
    case Or(items) => |items| >= 2 && AllWellFormed(items)
  }

  predicate AllWellFormed(items: seq<Expr>)
    decreases items, 0
  {
    items == [] || (WellFormed(items[0]) && AllWellFormed(items[1..]))
  }

  predicate GoodName(t: string) {
    Word(t) && t !in KEYWORDS
  }

  /** The token string of a tree. With `bare`, an And directly under an Or stands without
      parentheses, so that only the precedence of AND over OR can recover the tree. */
  function Tokens(e: Expr, bare: bool): (ts: seq<string>)
    decreases e, 2
  {
    match e
    case Id(name) => [name]
    case With(base, exception) => [base, "WITH", exception]
    case And(items) => ItemTokens(items, "AND", bare)
    case Or(items) => ItemTokens(items, "OR", bare)
  }

  function PartTokens(e: Expr, keyword: string, bare: bool): seq<string>
    decreases e, 3
  {
    if Compound(e) && !(bare && e.And? && keyword == "OR") then ["("] + Tokens(e, bare) + [")"]
    else Tokens(e, bare)
  }

  function ItemTokens(items: seq<Expr>, keyword: string, bare: bool): seq<string>
    decreases items, 0
  {
    if items == [] then []
    else if |items| == 1 then PartTokens(items[0], keyword, bare)
    else PartTokens(items[0], keyword, bare) + [keyword] + ItemTokens(items[1..], keyword, bare)
  }

  // ------------------------------------------------------------------ parsing tokens back

  predicate StartsAny(ts: seq<string>, stops: set<string>) {
    ts != [] && ts[0] in stops
  }

  function Leaf(e: Expr): seq<string>
    requires !Compound(e)
  {
    if e.Id? then [e.name] else [e.base, "WITH", e.exception]
  }

  lemma LeafTokens(e: Expr, keyword: string, bare: bool)
    requires !Compound(e)
    ensures PartTokens(e, keyword, bare) == Tokens(e, bare) == Leaf(e)
  {
  }

  lemma ParseLeaf(e: Expr, rest: seq<string>)
    requires WellFormed(e) && !Compound(e) && !Starts(rest, "WITH")
    ensures ParseWith(Leaf(e) + rest) == Some((e, rest))
  {
    var ts := Leaf(e) + rest;
    assert !WordChar("("[0]) && !WordChar(")"[0]);
    if e.Id? {
      assert Name(e.name) && ParseIdent(ts) == Some((e.name, ts[1..]));
      assert ts[1..] == rest;
    } else {
      assert ts[1..] == ["WITH", e.exception] + rest;
      assert ts[1..][1..] == [e.exception] + rest;
      assert ([e.exception] + rest)[1..] == rest;
    }
  }

  lemma {:induction false} ParsePart(e: Expr, bare: bool, rest: seq<string>)
    requires WellFormed(e) && !Starts(rest, "WITH")
    ensures ParseWith(PartTokens(e, "AND", bare) + rest) == Some((e, rest))
    decreases e, 4
  {
    var ts := PartTokens(e, "AND", bare) + rest;
    if Compound(e) {
      assert ts[1..] == Tokens(e, bare) + ([")"] + rest);
      ParseTokens(e, bare, [")"] + rest);
      assert ([")"] + rest)[1..] == rest;
    } else {
      LeafTokens(e, "AND", bare);
      ParseLeaf(e, rest);
    }
  }

  lemma {:induction false} ParseAndItems(items: seq<Expr>, bare: bool, rest: seq<string>)
    requires items != [] && AllWellFormed(items)
    requires !StartsAny(rest, {"WITH", "AND"})
    ensures ParseAnds(["AND"] + ItemTokens(items, "AND", bare) + rest) == Some((items, rest))
    decreases items, 0
  {
    var ts := ["AND"] + ItemTokens(items, "AND", bare) + rest;
    if |items| == 1 {
      assert ts[1..] == PartTokens(items[0], "AND", bare) + rest;
      ParsePart(items[0], bare, rest);
    } else {
      var tail := ["AND"] + ItemTokens(items[1..], "AND", bare) + rest;
      assert ts[1..] == PartTokens(items[0], "AND", bare) + tail;
      ParsePart(items[0], bare, tail);
      ParseAndItems(items[1..], bare, rest);
      assert ParseWith(ts[1..]) == Some((items[0], tail));
      assert [items[0]] + items[1..] == items;
    }
  }

  lemma {:induction false} ParseAndTree(e: Expr, bare: bool, rest: seq<string>)
    requires e.And? && WellFormed(e) && !StartsAny(rest, {"WITH", "AND"})
    ensures ParseConjunction(Tokens(e, bare) + rest) == Some((e, rest))
    decreases e, 1
  {
    var tail := ["AND"] + ItemTokens(e.items[1..], "AND", bare) + rest;
    assert Tokens(e, bare) + rest == PartTokens(e.items[0], "AND", bare) + tail;
    ParsePart(e.items[0], bare, tail);
    ParseAndItems(e.items[1..], bare, rest);
    assert [e.items[0]] + e.items[1..] == e.items;
  }

  lemma {:induction false} ParseOrPart(e: Expr, bare: bool, rest: seq<string>)
    requires WellFormed(e) && !StartsAny(rest, {"WITH", "AND"})
    ensures ParseConjunction(PartTokens(e, "OR", bare) + rest) == Some((e, rest))
    decreases e, 5
  {
    if bare && e.And? {
      ParseAndTree(e, bare, rest);
    } else {
      assert PartTokens(e, "OR", bare) == PartTokens(e, "AND", bare);
      ParsePart(e, bare, rest);
      assert ParseAnds(rest) == Some(([], rest));
    }
  }

  lemma {:induction false} ParseOrItems(items: seq<Expr>, bare: bool, rest: seq<string>)
    requires items != [] && AllWellFormed(items)
    requires !StartsAny(rest, KEYWORDS)
    ensures ParseOrs(["OR"] + ItemTokens(items, "OR", bare) + rest) == Some((items, rest))
    decreases items, 0
  {
    var ts := ["OR"] + ItemTokens(items, "OR", bare) + rest;
    if |items| == 1 {
      assert ts[1..] == PartTokens(items[0], "OR", bare) + rest;
      ParseOrPart(items[0], bare, rest);
    } else {
      var tail := ["OR"] + ItemTokens(items[1..], "OR", bare) + rest;
      assert ts[1..] == PartTokens(items[0], "OR", bare) + tail;
      ParseOrPart(items[0], bare, tail);
      ParseOrItems(items[1..], bare, rest);
      assert ParseConjunction(ts[1..]) == Some((items[0], tail));
      assert [items[0]] + items[1..] == items;
    }
  }

  /** Parsing the tokens of a tree gives the tree and stops exactly at their end, whether or not
      the parentheses that precedence makes redundant are written. */
  lemma {:induction false} ParseTokens(e: Expr, bare: bool, rest: seq<string>)
    requires WellFormed(e) && !StartsAny(rest, KEYWORDS)
    ensures ParseDisjunction(Tokens(e, bare) + rest) == Some((e, rest))
    decreases e, 3
  {
    if e.Or? {
      var tail := ["OR"] + ItemTokens(e.items[1..], "OR", bare) + rest;
      assert Tokens(e, bare) + rest == PartTokens(e.items[0], "OR", bare) + tail;
      ParseOrPart(e.items[0], bare, tail);
      ParseOrItems(e.items[1..], bare, rest);
      assert [e.items[0]] + e.items[1..] == e.items;
    } else if e.And? {
      ParseAndTree(e, bare, rest);
    } else {
      LeafTokens(e, "AND", bare);
      ParseLeaf(e, rest);
      assert ParseAnds(rest) == Some(([], rest)) && ParseOrs(rest) == Some(([], rest));
    }
  }

  // ------------------------------------------------------------------ lexing text back

  /** `rest` cannot extend a word in front of it. */
  predicate Breaks(rest: string) {
    rest == "" || !WordChar(rest[0])
  }

  lemma {:induction false} WordLengthOf(w: string, rest: string)
    requires (forall i :: 0 <= i < |w| ==> WordChar(w[i])) && Breaks(rest)
    ensures WordLength(w + rest) == |w|
  {
    if w == "" {
      assert w + rest == rest;
    } else {
      assert (w + rest)[1..] == w[1..] + rest;
      WordLengthOf(w[1..], rest);
    }
  }

  lemma LexWord(w: string, rest: string)
    requires Word(w) && Breaks(rest)
    ensures Lex(w + rest) == [w] + Lex(rest)
  {
    WordLengthOf(w, rest);
    assert (w + rest)[..|w|] == w && (w + rest)[|w|..] == rest;
  }

  lemma LexParen(paren: string, rest: string)
    requires paren == "(" || paren == ")"
    ensures Lex(paren + rest) == [paren] + Lex(rest)
  {
    assert (paren + rest)[..1] == paren && (paren + rest)[1..] == rest;
  }

  /** A keyword between two blanks is one token. */
  lemma LexJoiner(keyword: string, rest: string)
    requires keyword in KEYWORDS
    ensures Lex(" " + keyword + " " + rest) == [keyword] + Lex(rest)
  {
    var spaced := " " + rest;
    assert (" " + keyword + " " + rest)[1..] == keyword + spaced;
    LexWord(keyword, spaced);
    assert spaced[1..] == rest;
  }

  lemma {:induction false} LexPrint(e: Expr, rest: string)
    requires WellFormed(e) && Breaks(rest)
    ensures Lex(Print(e) + rest) == Tokens(e, false) + Lex(rest)
    decreases e, 2
  {
    match e
    case Id(name) => LexWord(name, rest);
    case With(base, exception) =>
      var tail := " WITH " + (exception + rest);
      assert Print(e) + rest == base + tail;
      LexWord(base, tail);
      assert tail == " " + "WITH" + " " + (exception + rest);
      LexJoiner("WITH", exception + rest);
      LexWord(exception, rest);
    case And(items) =>
      assert " AND " == " " + "AND" + " ";
      LexItems(items, "AND", rest);
    case Or(items) =>
      assert " OR " == " " + "OR" + " ";
      LexItems(items, "OR", rest);
  }

  lemma {:induction false} LexPart(e: Expr, keyword: string, rest: string)
    requires WellFormed(e) && Breaks(rest)
    ensures Lex(PrintPart(e) + rest) == PartTokens(e, keyword, false) + Lex(rest)
    decreases e, 3
  {
    if Compound(e) {
      assert PrintPart(e) + rest == "(" + (Print(e) + (")" + rest));
      LexParen("(", Print(e) + (")" + rest));
      LexPrint(e, ")" + rest);
      LexParen(")", rest);
    } else {
      LexPrint(e, rest);
    }
  }

  lemma {:induction false} LexItems(items: seq<Expr>, keyword: string, rest: string)
    requires items != [] && AllWellFormed(items) && keyword in KEYWORDS && Breaks(rest)
    ensures Lex(PrintItems(items, " " + keyword + " ") + rest)
         == ItemTokens(items, keyword, false) + Lex(rest)
    decreases items, 0
  {
    if |items| == 1 {
      LexPart(items[0], keyword, rest);
    } else {
      var joiner := " " + keyword + " ";
      var after := PrintItems(items[1..], joiner) + rest;
      LexItems(items[1..], keyword, rest);
      LexJoiner(keyword, after);
      LexPart(items[0], keyword, joiner + after);
      Regroup(PrintPart(items[0]), joiner, PrintItems(items[1..], joiner), rest);
      Regroup(PartTokens(items[0], keyword, false), [keyword],
              ItemTokens(items[1..], keyword, false), Lex(rest));
    }
  }

  lemma Regroup<T>(a: seq<T>, b: seq<T>, c: seq<T>, d: seq<T>)
    ensures (a + b + c) + d == a + (b + (c + d))
  {
  }

  // ------------------------------------------------------------------ main results

  /** Printing and reading back is the identity on every tree the parser can build. */
  lemma PrintParseRoundTrip(e: Expr)
    requires WellFormed(e)
    ensures Parse(Print(e)) == Some(e)
  {
    assert Print(e) + "" == Print(e);
    LexPrint(e, "");
    assert Tokens(e, false) + Lex("") == Tokens(e, false) + [];
    ParseTokens(e, false, []);
  }

  /** AND binds tighter than OR: a tree is recovered from tokens that leave that implicit. */
  lemma PrecedenceRecoversTree(e: Expr)
    requires WellFormed(e)
    ensures ParseDisjunction(Tokens(e, true)) == Some((e, []))
  {
    assert Tokens(e, true) + [] == Tokens(e, true);
    ParseTokens(e, true, []);
  }

  predicate AllTokens(ts: seq<string>) {
    forall i :: 0 <= i < |ts| ==> Token(ts[i])
  }

  /** Whatever the grammar accepts is well formed, and what is left over is a proper suffix. */
  lemma {:induction false} ParsedIsWellFormed(ts: seq<string>)
    requires AllTokens(ts)
    ensures var r := ParseDisjunction(ts);
      r.Some? ==> WellFormed(r.value.0) && AllTokens(r.value.1)
    decreases |ts|, 3
  {
    ParsedConjunction(ts);
    var head := ParseConjunction(ts);
    if head.Some? {
      ParsedOrs(head.value.1);
      var tail := ParseOrs(head.value.1);
      if tail.Some? {
        assert ([head.value.0] + tail.value.0)[1..] == tail.value.0;
      }
    }
  }

  lemma {:induction false} ParsedConjunction(ts: seq<string>)
    requires AllTokens(ts)
    ensures var r := ParseConjunction(ts);
      r.Some? ==> WellFormed(r.value.0) && AllTokens(r.value.1)
    decreases |ts|, 2
  {
    ParsedWith(ts);
    var head := ParseWith(ts);
    if head.Some? {
      ParsedAnds(head.value.1);
      var tail := ParseAnds(head.value.1);
      if tail.Some? {
        assert ([head.value.0] + tail.value.0)[1..] == tail.value.0;
      }
    }
  }

  lemma {:induction false} ParsedWith(ts: seq<string>)
    requires AllTokens(ts)
    ensures var r := ParseWith(ts);
      r.Some? ==> WellFormed(r.value.0) && AllTokens(r.value.1)
    decreases |ts|, 1
  {
    if Starts(ts, "(") {
      ParsedIsWellFormed(ts[1..]);
    }
  }

  lemma {:induction false} ParsedAnds(ts: seq<string>)
    requires AllTokens(ts)
    ensures var r := ParseAnds(ts);
      r.Some? ==> AllWellFormed(r.value.0) && AllTokens(r.value.1)
    decreases |ts|, 0
  {
    if Starts(ts, "AND") {
      ParsedWith(ts[1..]);
      var head := ParseWith(ts[1..]);
      if head.Some? {
        ParsedAnds(head.value.1);
      }
    }
  }

  lemma {:induction false} ParsedOrs(ts: seq<string>)
    requires AllTokens(ts)
    ensures var r := ParseOrs(ts);
      r.Some? ==> AllWellFormed(r.value.0) && AllTokens(r.value.1)
    decreases |ts|, 0
  {
    if Starts(ts, "OR") {
      ParsedConjunction(ts[1..]);
      var head := ParseConjunction(ts[1..]);
      if head.Some? {
        ParsedOrs(head.value.1);
      }
    }
  }

  /** Every accepted text denotes a well-formed tree, and printing that tree loses nothing:
      parsing, printing and parsing again gives what parsing gave. */
  lemma ParseIsStable(text: string)
    requires Parse(text).Some?
    ensures WellFormed(Parse(text).value)
    ensures Parse(Print(Parse(text).value)) == Parse(text)
  {
    ParsedIsWellFormed(Lex(text));
    PrintParseRoundTrip(Parse(text).value);
  }
}
