/**
  The pure string logic inside `safeEvaluate` and `handleCalculate`
  (components/Calculator.tsx): the character classifier given by the
  negated character class of lines 83 and 103, the glyph sanitiser, and the
  local evaluator with its arithmetic core left abstract.
 */
module Expression {
  import opened JsText

  /** A character the classifier allows: a digit, `+ - * / ( ) .` or whitespace. */
  predicate IsSimpleChar(c: char) {
    || ('0' <= c <= '9')
    || c == '+' || c == '-' || c == '*' || c == '/'
    || c == '(' || c == ')' || c == '.'
    || IsWhitespace(c)
  }

  /** The regular expression test: some character of `s` lies outside the simple set. */
  predicate IsComplex(s: string) {
    exists i :: 0 <= i < |s| && !IsSimpleChar(s[i])
  }

  /** A concatenation is complex exactly when one of its parts is. */
  lemma ComplexConcat(a: string, b: string)
    ensures IsComplex(a + b) <==> IsComplex(a) || IsComplex(b)
  {
    if IsComplex(a) {
      var i :| 0 <= i < |a| && !IsSimpleChar(a[i]);
      assert (a + b)[i] == a[i];
    }
    if IsComplex(b) {
      var i :| 0 <= i < |b| && !IsSimpleChar(b[i]);
      assert (a + b)[|a| + i] == b[i];
    }
    if IsComplex(a + b) {
      var i :| 0 <= i < |a + b| && !IsSimpleChar((a + b)[i]);
      if i < |a| {
        assert (a + b)[i] == a[i];
      } else {
        assert (a + b)[i] == b[i - |a|];
      }
    }
  }

  /** `s.replace(/from/g, to)` for a one-character pattern and replacement. */
  function ReplaceAll(s: string, from: char, to: char): (r: string)
    ensures |r| == |s|
    ensures forall i :: 0 <= i < |s| ==> r[i] == (if s[i] == from then to else s[i])
  {
    if s == [] then [] else [if s[0] == from then to else s[0]] + ReplaceAll(s[1..], from, to)
  }

  /** The sanitiser: `×` becomes `*` and `÷` becomes `/`; every other character, and the length, are kept. */
  function Sanitize(s: string): (r: string)
    ensures |r| == |s|
    ensures forall i :: 0 <= i < |s| && s[i] != '×' && s[i] != '÷' ==> r[i] == s[i]
    ensures forall i :: 0 <= i < |s| && s[i] == '×' ==> r[i] == '*'
    ensures forall i :: 0 <= i < |s| && s[i] == '÷' ==> r[i] == '/'
  {
    ReplaceAll(ReplaceAll(s, '×', '*'), '÷', '/')
  }

  /** Neither glyph is a simple character, so a string that is not complex is left as it is by the sanitiser. */
  lemma SanitizeSimpleIsIdentity(s: string)
    requires !IsComplex(s)
    ensures Sanitize(s) == s
  {
    forall i | 0 <= i < |s|
      ensures Sanitize(s)[i] == s[i]
    {
      assert IsSimpleChar(s[i]);
    }
  }

  /** Sanitising never introduces a disallowed character: every character the check at line 83 rejects was already in the raw input. */
  lemma SanitizeAddsNoDisallowed(s: string)
    ensures IsComplex(Sanitize(s)) ==> IsComplex(s)
  {
    if IsComplex(Sanitize(s)) {
      var i :| 0 <= i < |s| && !IsSimpleChar(Sanitize(s)[i]);
      assert !IsSimpleChar(s[i]);
    }
  }

  /**
    What evaluating the sanitised text as JavaScript gives: an exception
    (a syntax error, say), a number that is infinite or NaN, or a finite
    number, carried as its rendering `String(Math.round(val * 1e8) / 1e8)`.
   */
  datatype Evaluation = Threw | NonFinite | Finite(rendered: string)

  /** The literal error marker. */
  const ErrorMarker: string := "Error"

  /**
    `safeEvaluate`: sanitise, refuse any disallowed character, otherwise
    hand the text to `arith` (the `new Function` evaluation and the
    formatting). Every failure, thrown or not, becomes the error marker.
   */
  function SafeEvaluate(arith: string -> Evaluation, expression: string): (r: string)
    ensures IsComplex(Sanitize(expression)) ==> r == ErrorMarker
    ensures r != ErrorMarker ==> !IsComplex(Sanitize(expression)) && arith(Sanitize(expression)) == Finite(r)
    ensures !IsComplex(Sanitize(expression)) && !arith(Sanitize(expression)).Finite? ==> r == ErrorMarker
    ensures !IsComplex(Sanitize(expression)) && arith(Sanitize(expression)).Finite? ==> r == arith(Sanitize(expression)).rendered
  {
    var sanitized := Sanitize(expression);
    if IsComplex(sanitized) then ErrorMarker
    else match arith(sanitized)
      case Threw => ErrorMarker
      case NonFinite => ErrorMarker
      case Finite(text) => text
  }

  /** On an input that passed the classifier, the local evaluator is exactly `arith` on the raw input: the sanitiser and the second check change nothing. */
  lemma SafeEvaluateOnSimple(arith: string -> Evaluation, expression: string)
    requires !IsComplex(expression)
    ensures SafeEvaluate(arith, expression) ==
      match arith(expression)
      case Finite(text) => text
      case _ => ErrorMarker
  {
    SanitizeSimpleIsIdentity(expression);
  }
}
