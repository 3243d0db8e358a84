/**
  * The arithmetic formulas of the auto-calculated fields (those whose
  * `calculate` text does not start with `=`). The app substitutes
  * `parseFloat(value) || 0` for every `field_NNN` reference and hands the
  * text to JavaScript's `eval`; here the formula is tokenised and parsed as
  * a JavaScript arithmetic expression (`+ - * / %`, unary signs,
  * parentheses, decimal literals and `field_NNN` references) and evaluated
  * over JavaScript numbers. Text that is not such an expression fails,
  * which is where `eval` throws.
  */
module Formula {
  import opened Js
  import opened JsNum

  datatype Token = TNum(v: real) | TRef(id: string) | TOp(op: char) | TOpen | TClose

  datatype Expr =
    | Lit(v: real)
    | Ref(id: string)
    | Unary(op: char, e: Expr)
    | Binary(op: char, l: Expr, r: Expr)

  predicate IsOperator(c: char) {
    c == '+' || c == '-' || c == '*' || c == '/' || c == '%'
  }

  predicate IsSign(c: char) {
    c == '+' || c == '-'
  }

  predicate IsFactorOp(c: char) {
    c == '*' || c == '/' || c == '%'
  }

  /** `field_` and exactly three digits, the references the app substitutes. */
  predicate IsRefName(id: string) {
    |id| == 9 && id[..6] == "field_" && IsDigits(id[6..])
  }

  // ---------------------------------------------------------------------
  // Tokens

  /** The token at the head of `s` (not white space) and its length. */
  function Lex(s: string): (r: Option<(Token, nat)>)
    requires s != []
    ensures r.Some? ==> 0 < r.value.1 <= |s|
  {
    if IsOperator(s[0]) then Some((TOp(s[0]), 1))
    else if s[0] == '(' then Some((TOpen, 1))
    else if s[0] == ')' then Some((TClose, 1))
    else if |s| >= 9 && IsRefName(s[..9]) then Some((TRef(s[..9]), 9))
    else
      var ip := LeadingDigits(s);
      if |ip| < |s| && s[|ip|] == '.' then
        var fp := LeadingDigits(s[|ip| + 1..]);
        if ip == "" && fp == "" then None
        else Some((TNum(DigitsValue(ip) as real + DigitsValue(fp) as real / Pow10(|fp|) as real), |ip| + 1 + |fp|))
      else if ip == "" then None
      else Some((TNum(DigitsValue(ip) as real), |ip|))
  }

  /** The tokens of a formula, or None when some character starts no token. */
  function Tokenize(s: string): Option<seq<Token>>
    decreases |s|
  {
    if s == [] then Some([])
    else if IsWhitespace(s[0]) then Tokenize(s[1..])
    else
      match Lex(s)
      case None => None
      case Some((t, n)) =>
        match Tokenize(s[n..])
        case None => None
        case Some(ts) => Some([t] + ts)
  }

  // ---------------------------------------------------------------------
  // Parsing: sums of products of signed primaries, left-associative

  function ParseExpr(ts: seq<Token>): (p: Option<(Expr, seq<Token>)>)
    ensures p.Some? ==> |p.value.1| < |ts|
    decreases |ts|, 3
  {
    match ParseTerm(ts)
    case None => None
    case Some((t, rest)) => ExprTail(t, rest)
  }

  /** `(+|-) term` repeated after the first term. */
  function ExprTail(acc: Expr, ts: seq<Token>): (p: Option<(Expr, seq<Token>)>)
    ensures p.Some? ==> |p.value.1| <= |ts|
    decreases |ts|, 4
  {
    if ts != [] && ts[0].TOp? && IsSign(ts[0].op) then
      match ParseTerm(ts[1..])
      case None => None
      case Some((t, rest)) => ExprTail(Binary(ts[0].op, acc, t), rest)
    else Some((acc, ts))
  }

  function ParseTerm(ts: seq<Token>): (p: Option<(Expr, seq<Token>)>)
    ensures p.Some? ==> |p.value.1| < |ts|
    decreases |ts|, 2
  {
    match ParseUnary(ts)
    case None => None
    case Some((u, rest)) => TermTail(u, rest)
  }

  /** `(*|/|%) unary` repeated after the first factor. */
  function TermTail(acc: Expr, ts: seq<Token>): (p: Option<(Expr, seq<Token>)>)
    ensures p.Some? ==> |p.value.1| <= |ts|
    decreases |ts|, 4
  {
    if ts != [] && ts[0].TOp? && IsFactorOp(ts[0].op) then
      match ParseUnary(ts[1..])
      case None => None
      case Some((u, rest)) => TermTail(Binary(ts[0].op, acc, u), rest)
    else Some((acc, ts))
  }

  function ParseUnary(ts: seq<Token>): (p: Option<(Expr, seq<Token>)>)
    ensures p.Some? ==> |p.value.1| < |ts|
    decreases |ts|, 1
  {
    if ts != [] && ts[0].TOp? && IsSign(ts[0].op) then
      match ParseUnary(ts[1..])
      case None => None
      case Some((e, rest)) => Some((Unary(ts[0].op, e), rest))
    else ParsePrimary(ts)
  }

  function ParsePrimary(ts: seq<Token>): (p: Option<(Expr, seq<Token>)>)
    ensures p.Some? ==> |p.value.1| < |ts|
    decreases |ts|, 0
  {
    if ts == [] then None
    else
      match ts[0]
      case TNum(v) => Some((Lit(v), ts[1..]))
      case TRef(id) => Some((Ref(id), ts[1..]))
      case TOpen =>
        (match ParseExpr(ts[1..])
         case Some((e, rest)) =>
           if rest != [] && rest[0] == TClose then Some((e, rest[1..])) else None
         case None => None)
      case _ => None
  }

  /** The whole token list is one expression. */
  function Parse(ts: seq<Token>): Option<Expr> {
    match ParseExpr(ts)
    case Some((e, rest)) => if rest == [] then Some(e) else None
    case None => None
  }

  // ---------------------------------------------------------------------
  // Evaluation

  /** `parseFloat(value) || 0` for the field a reference names. */
  function RefNum(rec: Record, id: string): (n: Num)
    ensures n.Fin? || n.Inf?
  {
    OrZero(ParseFloat(Get(rec, id)))
  }

  function Eval(rec: Record, e: Expr): Num {
    match e
    case Lit(v) => Fin(v)
    case Ref(id) => RefNum(rec, id)
    case Unary(op, a) => if op == '-' then Neg(Eval(rec, a)) else Eval(rec, a)
    case Binary(op, a, b) =>
      var x, y := Eval(rec, a), Eval(rec, b);
      if op == '+' then Add(x, y)
      else if op == '-' then Sub(x, y)
      else if op == '*' then Mul(x, y)
      else if op == '/' then Div(x, y)
      else Rem(x, y)
  }

  /**
    * `String(eval(formula))` with references substituted, or None where
    * `eval` throws. A formula of white space only evaluates to `undefined`.
    */
  function Run(rec: Record, text: string, show: real -> string): (r: Option<string>)
    ensures Tokenize(text) == Some([]) ==> r == Some("undefined")
    ensures Tokenize(text) == None ==> r == None
  {
    match Tokenize(text)
    case None => None
    case Some(ts) =>
      if ts == [] then Some("undefined")
      else
        match Parse(ts)
        case None => None
        case Some(e) => Some(Show(Eval(rec, e), show))
  }

  // ---------------------------------------------------------------------
  // A fully parenthesised rendering, and the parser reads it back

  /** Operators the parser can produce at each node. */
  predicate WellFormed(e: Expr) {
    match e
    case Lit(v) => true
    case Ref(id) => true
    case Unary(op, a) => IsSign(op) && WellFormed(a)
    case Binary(op, a, b) => IsOperator(op) && WellFormed(a) && WellFormed(b)
  }

  function Unparse(e: Expr): (ts: seq<Token>)
    ensures ts != []
  {
    match e
    case Lit(v) => [TNum(v)]
    case Ref(id) => [TRef(id)]
    case Unary(op, a) => [TOpen, TOp(op)] + Unparse(a) + [TClose]
    case Binary(op, a, b) => [TOpen] + Unparse(a) + [TOp(op)] + Unparse(b) + [TClose]
  }

  /** A rendered expression is read back as one primary, whatever follows. */
  lemma {:induction false} PrimaryOfUnparse(e: Expr, rest: seq<Token>)
    requires WellFormed(e)
    ensures ParsePrimary(Unparse(e) + rest) == Some((e, rest))
    decreases e, 2
  {
    match e
    case Lit(v) =>
      assert (Unparse(e) + rest)[1..] == rest;
    case Ref(id) =>
      assert (Unparse(e) + rest)[1..] == rest;
    case Unary(op, a) =>
      PrimaryOfUnary(op, a, rest);
    case Binary(op, a, b) =>
      PrimaryOfBinary(op, a, b, rest);
  }

  lemma {:induction false} PrimaryOfUnary(op: char, a: Expr, rest: seq<Token>)
    requires IsSign(op) && WellFormed(a)
    ensures ParsePrimary(Unparse(Unary(op, a)) + rest) == Some((Unary(op, a), rest))
    decreases Unary(op, a), 1
  {
    var tail := [TClose] + rest;
    var inner := [TOp(op)] + (Unparse(a) + tail);
    assert Unparse(Unary(op, a)) + rest == [TOpen] + inner;
    assert ([TOpen] + inner)[1..] == inner;
    InnerUnary(op, a, tail);
    assert tail[1..] == rest;
  }

  lemma {:induction false} PrimaryOfBinary(op: char, a: Expr, b: Expr, rest: seq<Token>)
    requires IsOperator(op) && WellFormed(a) && WellFormed(b)
    ensures ParsePrimary(Unparse(Binary(op, a, b)) + rest) == Some((Binary(op, a, b), rest))
    decreases Binary(op, a, b), 1
  {
    var tail := [TClose] + rest;
    var inner := Unparse(a) + ([TOp(op)] + (Unparse(b) + tail));
    assert Unparse(Binary(op, a, b)) + rest == [TOpen] + inner;
    assert ([TOpen] + inner)[1..] == inner;
    InnerBinary(op, a, b, tail);
    assert tail[1..] == rest;
  }

  /** Inside the parentheses of a rendered sign node. */
  lemma {:induction false} InnerUnary(op: char, a: Expr, tail: seq<Token>)
    requires IsSign(op) && WellFormed(a)
    requires tail != [] && tail[0] == TClose
    ensures ParseExpr([TOp(op)] + (Unparse(a) + tail)) == Some((Unary(op, a), tail))
    decreases Unary(op, a), 0
  {
    var inner := Unparse(a) + tail;
    PrimaryOfUnparse(a, tail);
    assert ParseUnary(inner) == Some((a, tail));
    assert ([TOp(op)] + inner)[1..] == inner;
    assert ParseUnary([TOp(op)] + inner) == Some((Unary(op, a), tail));
    assert ParseTerm([TOp(op)] + inner) == Some((Unary(op, a), tail));
  }

  /** Inside the parentheses of a rendered binary node. */
  lemma {:induction false} InnerBinary(op: char, a: Expr, b: Expr, tail: seq<Token>)
    requires IsOperator(op) && WellFormed(a) && WellFormed(b)
    requires tail != [] && tail[0] == TClose
    ensures ParseExpr(Unparse(a) + ([TOp(op)] + (Unparse(b) + tail))) == Some((Binary(op, a, b), tail))
    decreases Binary(op, a, b), 0
  {
    var afterA := [TOp(op)] + (Unparse(b) + tail);
    PrimaryOfUnparse(a, afterA);
    PrimaryOfUnparse(b, tail);
    assert ParseUnary(Unparse(a) + afterA) == Some((a, afterA));
    assert ParseUnary(Unparse(b) + tail) == Some((b, tail));
    assert afterA[1..] == Unparse(b) + tail;
    if IsFactorOp(op) {
      assert TermTail(Binary(op, a, b), tail) == Some((Binary(op, a, b), tail));
      assert TermTail(a, afterA) == Some((Binary(op, a, b), tail));
      assert ExprTail(Binary(op, a, b), tail) == Some((Binary(op, a, b), tail));
    } else {
      assert TermTail(a, afterA) == Some((a, afterA));
      assert TermTail(b, tail) == Some((b, tail));
      assert ParseTerm(Unparse(b) + tail) == Some((b, tail));
      assert ExprTail(Binary(op, a, b), tail) == Some((Binary(op, a, b), tail));
      assert ExprTail(a, afterA) == Some((Binary(op, a, b), tail));
    }
  }

  /** The parser inverts the rendering. */
  lemma ParseUnparse(e: Expr)
    requires WellFormed(e)
    ensures Parse(Unparse(e)) == Some(e)
  {
    PrimaryOfUnparse(e, []);
    assert Unparse(e) + [] == Unparse(e);
    assert !Unparse(e)[0].TOp?;
    assert ParseUnary(Unparse(e)) == Some((e, []));
    assert TermTail(e, []) == Some((e, []));
    assert ParseTerm(Unparse(e)) == Some((e, []));
    assert ExprTail(e, []) == Some((e, []));
  }

  // ---------------------------------------------------------------------
  // Evaluation agrees with real arithmetic where no division is involved

  /** No `/` or `%` anywhere. */
  predicate DivisionFree(e: Expr) {
    match e
    case Lit(v) => true
    case Ref(id) => true
    case Unary(op, a) => DivisionFree(a)
    case Binary(op, a, b) => op != '/' && op != '%' && DivisionFree(a) && DivisionFree(b)
  }

  /** Every field the expression references reads as a finite number. */
  predicate FiniteRefs(rec: Record, e: Expr) {
    match e
    case Lit(v) => true
    case Ref(id) => RefNum(rec, id).Fin?
    case Unary(op, a) => FiniteRefs(rec, a)
    case Binary(op, a, b) => FiniteRefs(rec, a) && FiniteRefs(rec, b)
  }

  /** The value in exact real arithmetic, references read as `parseFloat || 0`. */
  function RealValue(rec: Record, e: Expr): real
    requires DivisionFree(e) && FiniteRefs(rec, e)
  {
    match e
    case Lit(v) => v
    case Ref(id) => RefNum(rec, id).r
    case Unary(op, a) => if op == '-' then -RealValue(rec, a) else RealValue(rec, a)
    case Binary(op, a, b) =>
      if op == '+' then RealValue(rec, a) + RealValue(rec, b)
      else if op == '-' then RealValue(rec, a) - RealValue(rec, b)
      else RealValue(rec, a) * RealValue(rec, b)
  }

  /** Sums, differences and products of finite references never give NaN or an infinity. */
  lemma {:induction false} EvalReal(rec: Record, e: Expr)
    requires WellFormed(e) && DivisionFree(e) && FiniteRefs(rec, e)
    ensures Eval(rec, e) == Fin(RealValue(rec, e))
  {
    match e
    case Lit(v) =>
    case Ref(id) =>
    case Unary(op, a) => EvalReal(rec, a);
    case Binary(op, a, b) =>
      EvalReal(rec, a);
      EvalReal(rec, b);
      FiniteArith(RealValue(rec, a), RealValue(rec, b));
  }

  /** Finite operands add, subtract and multiply as reals. */
  lemma FiniteArith(x: real, y: real)
    ensures Add(Fin(x), Fin(y)) == Fin(x + y) && Sub(Fin(x), Fin(y)) == Fin(x - y)
    ensures Mul(Fin(x), Fin(y)) == Fin(x * y)
  {
  }

  /** A missing, empty or non-numeric field reads as 0. */
  lemma RefDefault(rec: Record, id: string)
    requires ParseFloat(Get(rec, id)) == NaN
    ensures Eval(rec, Ref(id)) == Fin(0.0)
  {
  }

  /** A field holding digits reads as their value. */
  lemma RefDigits(rec: Record, id: string)
    requires Get(rec, id) != [] && IsDigits(Get(rec, id))
    ensures Eval(rec, Ref(id)) == Fin(DigitsValue(Get(rec, id)) as real)
  {
    ParseFloatDigits(Get(rec, id));
  }
}
