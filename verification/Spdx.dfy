/** The AND / OR / WITH subset of SPDX licence expressions (Annex D of the SPDX Specification 2.3):
    lexer, recursive-descent parser and printer of deploy/supply-chain/supply_chain_check.py. */
module Spdx {
  import opened Wrappers
  import opened Text

  datatype Expr =
    | Id(name: string)
    | With(base: string, exception: string)
    | And(items: seq<Expr>)
    | Or(items: seq<Expr>)

  /** An And or an Or: what the printer puts parentheses around inside another one. */
  predicate Compound(e: Expr) {
    e.And? || e.Or?
  }

  // ------------------------------------------------------------------ lexer

  predicate IsParen(c: char) {
    c == '(' || c == ')'
  }

  predicate WordChar(c: char) {
    !IsSpace(c) && !IsParen(c)
  }

  /** A token of the third alternative of the token pattern. */
  predicate Word(t: string) {
    t != "" && forall i :: 0 <= i < |t| ==> WordChar(t[i])
  }

  function WordLength(text: string): (n: nat)
    ensures n <= |text|
    ensures forall i :: 0 <= i < n ==> WordChar(text[i])
    ensures n < |text| ==> !WordChar(text[n])
  {
    if text == "" || !WordChar(text[0]) then 0 else 1 + WordLength(text[1..])
  }

  predicate Token(t: string) {
    t == "(" || t == ")" || Word(t)
  }

  /** Every match of the token pattern, left to right; blanks match nothing and are skipped. */
  function Lex(text: string): (tokens: seq<string>)
    ensures forall i :: 0 <= i < |tokens| ==> Token(tokens[i])
    decreases |text|
  {
    if text == "" then []
    else if IsSpace(text[0]) then Lex(text[1..])
    else if IsParen(text[0]) then [text[..1]] + Lex(text[1..])
    else
      var n := WordLength(text);
      [text[..n]] + Lex(text[n..])
  }

  // ------------------------------------------------------------------ parser

  const KEYWORDS := {"AND", "OR", "WITH"}

  predicate Starts(ts: seq<string>, token: string) {
    ts != [] && ts[0] == token
  }

  /** A token that may name a licence or an exception. */
  predicate Name(t: string) {
    t !in KEYWORDS && t != "(" && t != ")"
  }

  type Parsed<T> = Option<(T, seq<string>)>

  function ParseIdent(ts: seq<string>): (r: Parsed<string>)
    ensures r.Some? ==> |r.value.1| < |ts|
  {
    if ts == [] || !Name(ts[0]) then None else Some((ts[0], ts[1..]))
  }

  function ParsePrimary(ts: seq<string>): (r: Parsed<Expr>)
    ensures r.Some? ==> |r.value.1| < |ts|
    decreases |ts|, 0
  {
    if Starts(ts, "(") then
      var inner := ParseDisjunction(ts[1..]);
      if inner.None? || !Starts(inner.value.1, ")") then None
      else Some((inner.value.0, inner.value.1[1..]))
    else
      var name := ParseIdent(ts);
      if name.None? then None else Some((Id(name.value.0), name.value.1))
  }

  function ParseWith(ts: seq<string>): (r: Parsed<Expr>)
    ensures r.Some? ==> |r.value.1| < |ts|
    decreases |ts|, 1
  {
    var left := ParsePrimary(ts);
    if left.None? || !Starts(left.value.1, "WITH") then left
    else if !left.value.0.Id? then None
    else
      var name := ParseIdent(left.value.1[1..]);
      if name.None? then None else Some((With(left.value.0.name, name.value.0), name.value.1))
  }

  /** The `while peek() == "AND"` loop: the further items and what is left. */
  function ParseAnds(ts: seq<string>): (r: Parsed<seq<Expr>>)
    ensures r.Some? ==> |r.value.1| <= |ts|
    decreases |ts|, 0
  {
    if !Starts(ts, "AND") then Some(([], ts))
    else
      var head := ParseWith(ts[1..]);
      if head.None? then None
      else
        var tail := ParseAnds(head.value.1);
        if tail.None? then None else Some(([head.value.0] + tail.value.0, tail.value.1))
  }

  function ParseConjunction(ts: seq<string>): (r: Parsed<Expr>)
    ensures r.Some? ==> |r.value.1| < |ts|
    decreases |ts|, 2
  {
    var head := ParseWith(ts);
    if head.None? then None
    else
      var tail := ParseAnds(head.value.1);
      if tail.None? then None
      else Some((GroupAnd([head.value.0] + tail.value.0), tail.value.1))
  }

  function ParseOrs(ts: seq<string>): (r: Parsed<seq<Expr>>)
    ensures r.Some? ==> |r.value.1| <= |ts|
    decreases |ts|, 0
  {
    if !Starts(ts, "OR") then Some(([], ts))
    else
      var head := ParseConjunction(ts[1..]);
      if head.None? then None
      else
        var tail := ParseOrs(head.value.1);
        if tail.None? then None else Some(([head.value.0] + tail.value.0, tail.value.1))
  }

  function ParseDisjunction(ts: seq<string>): (r: Parsed<Expr>)
    ensures r.Some? ==> |r.value.1| < |ts|
    decreases |ts|, 3
  {
    var head := ParseConjunction(ts);
    if head.None? then None
    else
      var tail := ParseOrs(head.value.1);
      if tail.None? then None
      else Some((GroupOr([head.value.0] + tail.value.0), tail.value.1))
  }

  function GroupAnd(items: seq<Expr>): Expr
    requires items != []
  {
    if |items| == 1 then items[0] else And(items)
  }

  function GroupOr(items: seq<Expr>): Expr
    requires items != []
  {
    if |items| == 1 then items[0] else Or(items)
  }

  /** The whole of `parse_expression`; None stands for its ValueError. */
  function Parse(text: string): Option<Expr> {
    var r := ParseDisjunction(Lex(text));
    if r.None? || r.value.1 != [] then None else Some(r.value.0)
  }

  /** `parse_expression` in its own form: nested closures that advance `pos` over `tokens`. */
  class Parser {
    const tokens: seq<string>
    var pos: nat

    ghost predicate Valid()
      reads this
    {
      pos <= |tokens|
    }

    /** The tokens not consumed yet. */
    ghost function Ahead(): seq<string>
      reads this
      requires Valid()
    {
      tokens[pos..]
    }

    /** The call left exactly what the specification leaves, and returned what it returns. */
    ghost predicate Did<T>(r: Option<T>, spec: Parsed<T>)
      reads this
    {
      && Valid()
      && r.Some? == spec.Some?
      && (r.Some? ==> r.value == spec.value.0 && Ahead() == spec.value.1)
    }

    constructor (tokens: seq<string>)
      ensures this.tokens == tokens && Valid() && Ahead() == tokens
    {
      this.tokens := tokens;
      pos := 0;
    }

    predicate Peek(token: string)
      reads this
      requires Valid()
      ensures Peek(token) == Starts(Ahead(), token)
    {
      pos < |tokens| && tokens[pos] == token
    }

    method Take() returns (token: string)
      requires Valid() && pos < |tokens|
      modifies this
      ensures Valid() && token == old(Ahead())[0] && Ahead() == old(Ahead())[1..]
      ensures pos == old(pos) + 1
    {
      token := tokens[pos];
      pos := pos + 1;
    }

    method Ident() returns (r: Option<string>)
      requires Valid()
      modifies this
      ensures Did(r, ParseIdent(old(Ahead())))
    {
      if pos == |tokens| || !Name(tokens[pos]) {
        return None;
      }
      var token := Take();
      return Some(token);
    }

    method Primary() returns (r: Option<Expr>)
      requires Valid()
      modifies this
      ensures Did(r, ParsePrimary(old(Ahead())))
      ensures r.Some? ==> old(pos) < pos
      decreases |tokens| - pos, 0
    {
      if Peek("(") {
        var _ := Take();
        var inner := Disjunction();
        if inner.None? || !Peek(")") {
          return None;
        }
        var _ := Take();
        return inner;
      }
      var name := Ident();
      r := if name.None? then None else Some(Id(name.value));
    }

    method WithClause() returns (r: Option<Expr>)
      requires Valid()
      modifies this
      ensures Did(r, ParseWith(old(Ahead())))
      ensures r.Some? ==> old(pos) < pos
      decreases |tokens| - pos, 1
    {
      var left := Primary();
      if left.None? {
        return None;
      }
      if Peek("WITH") {
        var _ := Take();
        if !left.value.Id? {
          return None;
        }
        var name := Ident();
        return if name.None? then None else Some(With(left.value.name, name.value));
      }
      return left;
    }

    method Conjunction() returns (r: Option<Expr>)
      requires Valid()
      modifies this
      ensures Did(r, ParseConjunction(old(Ahead())))
      ensures r.Some? ==> old(pos) < pos
      decreases |tokens| - pos, 2
    {
      var head := WithClause();
      if head.None? {
        return None;
      }
      var items := [head.value];
      ghost var whole := ParseAnds(Ahead());
      while Peek("AND")
        invariant Valid() && old(pos) < pos && items != []
        invariant var rest := ParseAnds(Ahead());
          whole.Some? == rest.Some? &&
          (whole.Some? ==> [head.value] + whole.value.0 == items + rest.value.0
                           && whole.value.1 == rest.value.1)
        decreases |tokens| - pos
      {
        var _ := Take();
        var item := WithClause();
        if item.None? {
          return None;
        }
        items := items + [item.value];
      }
      assert items + [] == items;
      return Some(GroupAnd(items));
    }

    method Disjunction() returns (r: Option<Expr>)
      requires Valid()
      modifies this
      ensures Did(r, ParseDisjunction(old(Ahead())))
      ensures r.Some? ==> old(pos) < pos
      decreases |tokens| - pos, 3
    {
      var head := Conjunction();
      if head.None? {
        return None;
      }
      var items := [head.value];
      ghost var whole := ParseOrs(Ahead());
      while Peek("OR")
        invariant Valid() && old(pos) < pos && items != []
        invariant var rest := ParseOrs(Ahead());
          whole.Some? == rest.Some? &&
          (whole.Some? ==> [head.value] + whole.value.0 == items + rest.value.0
                           && whole.value.1 == rest.value.1)
        decreases |tokens| - pos
      {
        var _ := Take();
        var item := Conjunction();
        if item.None? {
          return None;
        }
        items := items + [item.value];
      }
      assert items + [] == items;
      return Some(GroupOr(items));
    }
  }

  /** `parse_expression`: lex, parse, and refuse what is left over. */
  method ParseExpression(text: string) returns (r: Option<Expr>)
    ensures r == Parse(text)
  {
    var tokens := Lex(text);
    if tokens == [] {
      return None;
    }
    var parser := new Parser(tokens);
    r := parser.Disjunction();
    if r.Some? && parser.pos != |parser.tokens| {
      assert parser.Ahead() != [];
      r := None;
    }
  }

  // ------------------------------------------------------------------ printer

  /** `expression_text`. */
  function Print(e: Expr): string
    decreases e, 2
  {
    match e
    case Id(name) => name
    case With(base, exception) => base + " WITH " + exception
    case And(items) => PrintItems(items, " AND ")
    case Or(items) => PrintItems(items, " OR ")
  }

  function PrintPart(e: Expr): string
    decreases e, 3
  {
    if Compound(e) then "(" + Print(e) + ")" else Print(e)
  }

  /** `joiner.join(parts)`. */
  function PrintItems(items: seq<Expr>, joiner: string): string
    decreases items, 0
  {
    if items == [] then ""
    else if |items| == 1 then PrintPart(items[0])
    else PrintPart(items[0]) + joiner + PrintItems(items[1..], joiner)
  }

  /** `expression_ids`. */
  function Ids(e: Expr): set<string>
    decreases e, 1
  {
    match e
    case Id(name) => {name}
    case With(base, _) => {base}
    case And(items) => IdsOf(items)
    case Or(items) => IdsOf(items)
  }

  function IdsOf(items: seq<Expr>): set<string>
    decreases items, 0
  {
    if items == [] then {} else Ids(items[0]) + IdsOf(items[1..])
  }
}
