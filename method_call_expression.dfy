/**
 * The call node of the Java-to-Kotlin converter's target AST
 * (j2k/src/org/jetbrains/jet/j2k/ast/MethodCallExpression.kt): how a call is assembled
 * from a receiver and a method name, and how it is rendered as Kotlin source text.
 */
module MethodCall {
  import opened Wrappers
  import opened PrettyPrint

  /** A Kotlin type node; its structure is not part of this model. */
  datatype Type = Type(source: string)

  /** A lambda node; it renders to text carrying its own braces and spacing. */
  datatype LambdaExpression = LambdaExpression(source: string)

  /** The converter's comment translator, handed unchanged to every nested rendering. */
  datatype CommentConverter = CommentConverter(id: nat)

  /**
   * The expression kinds the factory builds, identifiers and qualified expressions;
   * `OtherExpression` stands for every other kind a receiver or an argument can be
   * (calls, lambdas, casts, ...), whose rendering is left to the `Printer`.
   */
  datatype Expression =
    | Identifier(name: string, isNullable: bool)
    | QualifiedExpression(qualifier: Expression, identifier: Expression)
    | OtherExpression(kind: string, isNullable: bool)

  /** A call: the target, positional arguments, type arguments, the nullability flag, an optional trailing lambda. */
  datatype MethodCallExpression = MethodCallExpression(
    methodExpression: Expression,
    arguments: seq<Expression>,
    typeArguments: seq<Type>,
    isNullable: bool,
    lambdaArgument: Option<LambdaExpression>)

  /**
   * The renderings the call node delegates to and that are defined elsewhere:
   * `operandToKotlin` (a sub-expression in operand position, grouped by precedence),
   * an expression's and a type's `toKotlin`, and the lambda's `toKotlin`.
   * Each is left uninterpreted.
   */
  datatype Printer = Printer(
    operandToKotlin: (Expression, CommentConverter) -> string,
    expressionToKotlin: (Expression, CommentConverter) -> string,
    typeToKotlin: (Type, CommentConverter) -> string,
    lambdaToKotlin: (LambdaExpression, CommentConverter) -> string)

  // ---------------------------------------------------------------------------
  // Construction

  /** The receiver a call target is qualified by, if any. */
  function Receiver(target: Expression): Option<Expression> {
    if target.QualifiedExpression? then Some(target.qualifier) else None
  }

  /** The name part of a call target. */
  function Selector(target: Expression): Expression {
    if target.QualifiedExpression? then target.identifier else target
  }

  /**
   * `build`: the target is the method name as a non-nullable identifier, qualified by
   * `receiver` when there is one; every other field is copied unchanged.
   */
  function Build(receiver: Option<Expression>, methodName: string, arguments: seq<Expression>,
                 typeArguments: seq<Type>, isNullable: bool,
                 lambdaArgument: Option<LambdaExpression> := None): (r: MethodCallExpression)
    ensures Receiver(r.methodExpression) == receiver
    ensures Selector(r.methodExpression) == Identifier(methodName, false)
    ensures r.arguments == arguments && r.typeArguments == typeArguments
    ensures r.isNullable == isNullable && r.lambdaArgument == lambdaArgument
  {
    var identifier := Identifier(methodName, false);
    MethodCallExpression(if receiver.Some? then QualifiedExpression(receiver.value, identifier) else identifier,
                         arguments, typeArguments, isNullable, lambdaArgument)
  }

  /** `buildNotNull`: a call whose result is never null. */
  function BuildNotNull(receiver: Option<Expression>, methodName: string, arguments: seq<Expression> := [],
                        typeArguments: seq<Type> := [],
                        lambdaArgument: Option<LambdaExpression> := None): (r: MethodCallExpression)
    ensures !r.isNullable
    ensures Receiver(r.methodExpression) == receiver
    ensures Selector(r.methodExpression) == Identifier(methodName, false)
    ensures r.arguments == arguments && r.typeArguments == typeArguments && r.lambdaArgument == lambdaArgument
  {
    Build(receiver, methodName, arguments, typeArguments, false, lambdaArgument)
  }

  /** `buildNullable`: a call whose result may be null. */
  function BuildNullable(receiver: Option<Expression>, methodName: string, arguments: seq<Expression> := [],
                         typeArguments: seq<Type> := [],
                         lambdaArgument: Option<LambdaExpression> := None): (r: MethodCallExpression)
    ensures r.isNullable
    ensures Receiver(r.methodExpression) == receiver
    ensures Selector(r.methodExpression) == Identifier(methodName, false)
    ensures r.arguments == arguments && r.typeArguments == typeArguments && r.lambdaArgument == lambdaArgument
  {
    Build(receiver, methodName, arguments, typeArguments, true, lambdaArgument)
  }

  /** `build` loses nothing: distinct inputs give distinct calls. */
  lemma BuildInjective(receiver1: Option<Expression>, name1: string, arguments1: seq<Expression>,
                       typeArguments1: seq<Type>, isNullable1: bool, lambda1: Option<LambdaExpression>,
                       receiver2: Option<Expression>, name2: string, arguments2: seq<Expression>,
                       typeArguments2: seq<Type>, isNullable2: bool, lambda2: Option<LambdaExpression>)
    requires Build(receiver1, name1, arguments1, typeArguments1, isNullable1, lambda1)
          == Build(receiver2, name2, arguments2, typeArguments2, isNullable2, lambda2)
    ensures receiver1 == receiver2 && name1 == name2 && arguments1 == arguments2
    ensures typeArguments1 == typeArguments2 && isNullable1 == isNullable2 && lambda1 == lambda2
  {
    var c := Build(receiver1, name1, arguments1, typeArguments1, isNullable1, lambda1);
    assert Selector(c.methodExpression) == Identifier(name1, false) == Identifier(name2, false);
  }

  // ---------------------------------------------------------------------------
  // Rendering

  /** Each argument's rendering, in call order. */
  function ArgumentTexts(call: MethodCallExpression, cc: CommentConverter, p: Printer): seq<string> {
    seq(|call.arguments|, i requires 0 <= i < |call.arguments| => p.expressionToKotlin(call.arguments[i], cc))
  }

  /** Each type argument's rendering, in order. */
  function TypeArgumentTexts(call: MethodCallExpression, cc: CommentConverter, p: Printer): seq<string> {
    seq(|call.typeArguments|, i requires 0 <= i < |call.typeArguments| => p.typeToKotlin(call.typeArguments[i], cc))
  }

  /** The target in operand position followed by the `<...>` block (empty without type arguments). */
  function Head(call: MethodCallExpression, cc: CommentConverter, p: Printer): string {
    p.operandToKotlin(call.methodExpression, cc)
      + ListToKotlin(TypeArgumentTexts(call, cc, p), ", ", "<", ">")
  }

  /** The argument list is written unless it is empty and a trailing lambda takes its place. */
  predicate HasArgumentList(call: MethodCallExpression) {
    |call.arguments| > 0 || call.lambdaArgument.None?
  }

  /** The parenthesised, comma-separated argument list. */
  function ArgumentList(call: MethodCallExpression, cc: CommentConverter, p: Printer): string {
    "(" + Join(ArgumentTexts(call, cc, p), ", ") + ")"
  }

  /** The trailing lambda's rendering, or nothing. */
  function LambdaText(call: MethodCallExpression, cc: CommentConverter, p: Printer): string {
    match call.lambdaArgument
    case Some(l) => p.lambdaToKotlin(l, cc)
    case None => ""
  }

  /** The Kotlin text of a call: head, argument list when written, trailing lambda. */
  function CallText(call: MethodCallExpression, cc: CommentConverter, p: Printer): (r: string)
    ensures |Head(call, cc, p)| <= |r| && r[..|Head(call, cc, p)|] == Head(call, cc, p)
  {
    Head(call, cc, p) + (if HasArgumentList(call) then ArgumentList(call, cc, p) else "") + LambdaText(call, cc, p)
  }

  /** `toKotlinImpl`: appends the parts to a builder one guarded step at a time. */
  method ToKotlinImpl(call: MethodCallExpression, cc: CommentConverter, p: Printer) returns (text: string)
    ensures text == CallText(call, cc, p)
  {
    var builder := "";
    builder := builder + p.operandToKotlin(call.methodExpression, cc);
    builder := builder + ListToKotlin(TypeArgumentTexts(call, cc, p), ", ", "<", ">");
    assert builder == Head(call, cc, p);
    if |call.arguments| > 0 || call.lambdaArgument.None? {
      builder := builder + "(" + Join(ArgumentTexts(call, cc, p), ", ") + ")";
    }
    assert builder == Head(call, cc, p) + (if HasArgumentList(call) then ArgumentList(call, cc, p) else "");
    if call.lambdaArgument.Some? {
      builder := builder + p.lambdaToKotlin(call.lambdaArgument.value, cc);
    }
    text := builder;
  }

  // ---------------------------------------------------------------------------
  // Properties of the rendering

  /**
   * The text starts with the target's operand rendering, immediately followed by the
   * type-argument block, which is empty exactly when there are no type arguments and
   * otherwise opens with `<` and closes with `>`.
   */
  lemma StartsWithTargetAndTypeArguments(call: MethodCallExpression, cc: CommentConverter, p: Printer)
    ensures var target := p.operandToKotlin(call.methodExpression, cc);
            var text := CallText(call, cc, p);
            var types := Head(call, cc, p)[|target|..];
            |target| <= |Head(call, cc, p)| <= |text| &&
            text[..|target|] == target &&
            text[|target|..|Head(call, cc, p)|] == types &&
            (types == "" <==> |call.typeArguments| == 0) &&
            (|call.typeArguments| > 0 ==>
               types == "<" + Join(TypeArgumentTexts(call, cc, p), ", ") + ">")
  {
    var target := p.operandToKotlin(call.methodExpression, cc);
    var head := Head(call, cc, p);
    var text := CallText(call, cc, p);
    var tail := (if HasArgumentList(call) then ArgumentList(call, cc, p) else "") + LambdaText(call, cc, p);
    assert text == head + tail;
    assert head[..|target|] == target;
    assert text[..|head|] == head;
  }

  /**
   * The parenthesised argument list appears right after the head exactly when there are
   * arguments or there is no trailing lambda; otherwise the lambda follows the head directly.
   */
  lemma ArgumentListIff(call: MethodCallExpression, cc: CommentConverter, p: Printer)
    ensures CallText(call, cc, p) == Head(call, cc, p) + ArgumentList(call, cc, p) + LambdaText(call, cc, p)
            <==> (|call.arguments| > 0 || call.lambdaArgument.None?)
    ensures (|call.arguments| == 0 && call.lambdaArgument.Some?) ==>
              CallText(call, cc, p) == Head(call, cc, p) + LambdaText(call, cc, p)
  {
    if !HasArgumentList(call) {
      var h, l := Head(call, cc, p), LambdaText(call, cc, p);
      assert |h + ArgumentList(call, cc, p) + l| > |h + l|;
    }
  }

  /** Without arguments and without a lambda the call ends in exactly `()`. */
  lemma EmptyArgumentList(call: MethodCallExpression, cc: CommentConverter, p: Printer)
    requires |call.arguments| == 0 && call.lambdaArgument.None?
    ensures CallText(call, cc, p) == Head(call, cc, p) + "()"
  {
  }

  /**
   * Inside the parentheses, argument `i`'s rendering stands at its join offset, and
   * consecutive arguments are separated by exactly `", "`.
   */
  lemma ArgumentInOrder(call: MethodCallExpression, cc: CommentConverter, p: Printer, i: nat)
    requires i < |call.arguments|
    ensures ArgumentPlaced(CallText(call, cc, p), |Head(call, cc, p)| + 1,
                           ArgumentTexts(call, cc, p), i)
  {
    var texts := ArgumentTexts(call, cc, p);
    var joined := Join(texts, ", ");
    var before := Head(call, cc, p) + "(";
    var after := ")" + LambdaText(call, cc, p);
    assert CallText(call, cc, p) == before + joined + after;
    JoinPartAt(texts, ", ", i);
    PlacedInText(before, joined, after, texts, i);
  }

  /** A fragment placed in the joined list keeps its place once the list is parenthesised. */
  lemma PlacedInText(before: string, joined: string, after: string, texts: seq<string>, i: nat)
    requires i < |texts| && |after| > 0 && after[0] == ')'
    requires PartPlaced(joined, texts, ", ", i)
    ensures ArgumentPlaced(before + joined + after, |before|, texts, i)
  {
    var text := before + joined + after;
    var o := Offset(texts, ", ", i);
    var n := |texts[i]|;
    InfixSlice(before, joined, after, o, n);
    if i + 1 < |texts| {
      InfixSlice(before, joined, after, o + n, 2);
    } else {
      assert text[|before| + o + n] == after[0];
    }
  }

  /**
   * In `text`, whose argument list starts at `start`, fragment `i` stands at its join
   * offset and is followed by `", "`, or by `)` when it is the last one.
   */
  predicate ArgumentPlaced(text: string, start: nat, texts: seq<string>, i: nat)
    requires i < |texts|
  {
    var at := start + Offset(texts, ", ", i);
    var end := at + |texts[i]|;
    end <= |text| && text[at..end] == texts[i] &&
    (i + 1 < |texts| ==> end + 2 <= |text| && text[end..end + 2] == ", ") &&
    (i + 1 == |texts| ==> end < |text| && text[end] == ')')
  }

  /** A slice of the middle part of a concatenation, read through the whole. */
  lemma InfixSlice(before: string, middle: string, after: string, from: nat, len: nat)
    requires from + len <= |middle|
    ensures (before + middle + after)[|before| + from..|before| + from + len] == middle[from..from + len]
  {
    var whole := before + middle + after;
    assert forall k :: from <= k < from + len ==> whole[|before| + k] == middle[k];
  }

  /** A trailing lambda's rendering ends the text; without one the text ends with `)`. */
  lemma EndsWithLambdaOrParenthesis(call: MethodCallExpression, cc: CommentConverter, p: Printer)
    ensures var text := CallText(call, cc, p);
            match call.lambdaArgument
            case Some(l) =>
              var lt := p.lambdaToKotlin(l, cc);
              |lt| <= |text| && text[|text| - |lt|..] == lt
            case None => |text| > 0 && text[|text| - 1] == ')'
  {
    var text := CallText(call, cc, p);
    var front := Head(call, cc, p) + (if HasArgumentList(call) then ArgumentList(call, cc, p) else "");
    assert text == front + LambdaText(call, cc, p);
    if call.lambdaArgument.None? {
      assert text == Head(call, cc, p) + "(" + Join(ArgumentTexts(call, cc, p), ", ") + ")";
    }
  }

  /** The nullability flag is never rendered: flipping it leaves the text unchanged. */
  lemma NullabilityNotRendered(call: MethodCallExpression, cc: CommentConverter, p: Printer, flag: bool)
    ensures CallText(call.(isNullable := flag), cc, p) == CallText(call, cc, p)
  {
    var other := call.(isNullable := flag);
    assert ArgumentTexts(other, cc, p) == ArgumentTexts(call, cc, p);
    assert TypeArgumentTexts(other, cc, p) == TypeArgumentTexts(call, cc, p);
  }

  /** The two named factories differ only in the flag, so their calls render identically. */
  lemma NotNullAndNullableRenderAlike(receiver: Option<Expression>, methodName: string, arguments: seq<Expression>,
                                      typeArguments: seq<Type>, lambdaArgument: Option<LambdaExpression>,
                                      cc: CommentConverter, p: Printer)
    ensures CallText(BuildNotNull(receiver, methodName, arguments, typeArguments, lambdaArgument), cc, p)
         == CallText(BuildNullable(receiver, methodName, arguments, typeArguments, lambdaArgument), cc, p)
  {
    var notNull := BuildNotNull(receiver, methodName, arguments, typeArguments, lambdaArgument);
    var nullable := BuildNullable(receiver, methodName, arguments, typeArguments, lambdaArgument);
    assert nullable == notNull.(isNullable := true);
    NullabilityNotRendered(notNull, cc, p, true);
  }

  // ---------------------------------------------------------------------------
  // Worked cases, for any printer that renders the leaves as shown

  /** `foo` with no arguments and no lambda renders as `foo()`. */
  lemma BareCallScenario(cc: CommentConverter, p: Printer)
    requires p.operandToKotlin(Identifier("foo", false), cc) == "foo"
    ensures CallText(BuildNotNull(None, "foo"), cc, p) == "foo()"
  {
  }

  /** `foo` with only a trailing lambda renders without parentheses: `foo { y }`. */
  lemma LambdaOnlyScenario(cc: CommentConverter, p: Printer, y: LambdaExpression)
    requires p.operandToKotlin(Identifier("foo", false), cc) == "foo"
    requires p.lambdaToKotlin(y, cc) == " { y }"
    ensures CallText(BuildNotNull(None, "foo", [], [], Some(y)), cc, p) == "foo { y }"
  {
  }

  /** `foo(x)` with a trailing lambda keeps both: `foo(x) { y }`. */
  lemma ArgumentAndLambdaScenario(cc: CommentConverter, p: Printer, x: Expression, y: LambdaExpression)
    requires p.operandToKotlin(Identifier("foo", false), cc) == "foo"
    requires p.expressionToKotlin(x, cc) == "x"
    requires p.lambdaToKotlin(y, cc) == " { y }"
    ensures CallText(BuildNotNull(None, "foo", [x], [], Some(y)), cc, p) == "foo(x) { y }"
  {
    var call := BuildNotNull(None, "foo", [x], [], Some(y));
    assert ArgumentTexts(call, cc, p) == ["x"];
  }

  /** Type arguments go between the target and the argument list: `foo<T>()`. */
  lemma TypeArgumentScenario(cc: CommentConverter, p: Printer, t: Type)
    requires p.operandToKotlin(Identifier("foo", false), cc) == "foo"
    requires p.typeToKotlin(t, cc) == "T"
    ensures CallText(BuildNotNull(None, "foo", [], [t]), cc, p) == "foo<T>()"
  {
    var call := BuildNotNull(None, "foo", [], [t]);
    assert TypeArgumentTexts(call, cc, p) == ["T"];
  }
}
