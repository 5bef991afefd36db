/**
 * The error normalizer behind `ChatError`: reduces an error value of unknown
 * shape to the one string the error card shows, or to nothing.
 * `JSON.stringify` and `JSON.parse` are foreign; they are parameters here.
 */
module ChatError {
  import opened Wrappers
  import ErrorSpan

  /**
   * The shapes an error value can take. `Record` is a plain object whose
   * `message` and `error` fields (`messageField`, `errorField`) are strings or absent; `others` stands for
   * its remaining fields. `Number` is a JavaScript number that is an exact
   * integer. `SymbolOrFunction` is any other always-truthy value, with the
   * text `String()` gives it.
   */
  datatype ErrorValue =
    | Undefined
    | Null
    | Boolean(b: bool)
    | Number(n: SafeInteger)
    | Text(s: string)
    | ErrorInstance(message: string)
    | Record(messageField: Option<string>, errorField: Option<string>, others: map<string, string>)
    | SymbolOrFunction(text: string)

  /** The integers a JavaScript number holds exactly: at most 2^53 - 1 in magnitude. */
  newtype SafeInteger = n: int | -0x1F_FFFF_FFFF_FFFF <= n <= 0x1F_FFFF_FFFF_FFFF

  /** JavaScript truthiness of an error value. */
  predicate Truthy(e: ErrorValue) {
    match e
    case Undefined => false
    case Null => false
    case Boolean(b) => b
    case Number(n) => n != 0
    case Text(s) => s != ""
    case _ => true
  }

  /** Truthiness of an optional string field: present and non-empty. */
  predicate FieldTruthy(f: Option<string>) {
    f.Some? && f.value != ""
  }

  /**
   * What `JSON.stringify(error)` does: returns a text, returns `undefined`
   * (an object whose `toJSON` gives `undefined`), or throws (an object that
   * refers to itself, or holds a BigInt).
   */
  datatype Serialization = Serialized(json: string) | SerializedUndefined | SerializationThrows

  type Stringify = ErrorValue -> Serialization

  /** What `JSON.parse` yields: a syntax error, or an object whose `error` field is a string or absent. */
  datatype Parsed = SyntaxError | ParsedObject(error: Option<string>)

  type Parse = string -> Parsed

  predicate IsDigit(c: char) {
    '0' <= c <= '9'
  }

  /** The number a string of decimal digits denotes. */
  function DigitsValue(s: string): int
    decreases |s|
  {
    if s == [] then 0 else DigitsValue(s[..|s| - 1]) * 10 + (s[|s| - 1] as int - '0' as int)
  }

  /** The decimal numeral of `n`: digits only, no leading zero, denoting `n`. */
  function DecimalDigits(n: nat): (r: string)
    ensures |r| > 0 && (forall k :: 0 <= k < |r| ==> IsDigit(r[k]))
    ensures |r| > 1 ==> r[0] != '0'
    ensures DigitsValue(r) == n
    decreases n
  {
    var d := ('0' as int + n % 10) as char;
    if n < 10 then [d]
    else
      var high := DecimalDigits(n / 10);
      assert (high + [d])[..|high|] == high;
      high + [d]
  }

  /**
   * `String(value)`. For a number it is the decimal numeral, with a minus sign
   * when negative; every safe integer is below 10^21, where JavaScript would
   * switch to exponent notation.
   */
  function ToDisplayString(e: ErrorValue): (r: string)
    ensures e.Number? && e.n >= 0 ==>
              && |r| > 0 && (|r| > 1 ==> r[0] != '0')
              && (forall k :: 0 <= k < |r| ==> IsDigit(r[k])) && DigitsValue(r) == e.n as int
    ensures e.Number? && e.n < 0 ==>
              && |r| > 1 && r[0] == '-' && (|r| > 2 ==> r[1] != '0')
              && (forall k :: 1 <= k < |r| ==> IsDigit(r[k])) && DigitsValue(r[1..]) == -(e.n as int)
  {
    match e
    case Undefined => "undefined"
    case Null => "null"
    case Boolean(b) => if b then "true" else "false"
    case Number(n) => if n < 0 then "-" + DecimalDigits(-(n as int)) else DecimalDigits(n as int)
    case Text(s) => s
    case ErrorInstance(m) => if m == "" then "Error" else "Error: " + m
    case Record(_, _, _) => "[object Object]"
    case SymbolOrFunction(t) => t
  }

  /**
   * The candidate of a truthy error value, as the code is written: `None` when
   * `JSON.stringify` throws, which happens outside the `try`. When it returns
   * `undefined`, the candidate is `undefined`: the refinement skips it
   * (`errorMessage?.`) and the card shows no text, as it would for "".
   */
  function CandidateAsWritten(e: ErrorValue, stringify: Stringify): (c: Option<string>)
    requires Truthy(e)
    ensures c.None? <==>
              e.Record? && !FieldTruthy(e.messageField) && !FieldTruthy(e.errorField) && stringify(e) == SerializationThrows
  {
    match e
    case ErrorInstance(m) => Some(m)
    case Text(s) => Some(s)
    case Record(m, err, _) =>
      if FieldTruthy(m) then m
      else if FieldTruthy(err) then err
      else (match stringify(e)
        case Serialized(json) => Some(json)
        case SerializedUndefined => Some("")
        case SerializationThrows => None)
    case _ => Some(ToDisplayString(e))
  }

  /**
   * The candidate of a truthy error value: an Error's message, a string
   * itself, an object's truthy `message`, else its truthy `error`, else its
   * serialization (or `String(error)` when serialization throws), else
   * `String(error)`.
   */
  function Candidate(e: ErrorValue, stringify: Stringify): (c: string)
    requires Truthy(e)
    ensures CandidateAsWritten(e, stringify).Some? ==> c == CandidateAsWritten(e, stringify).value
    ensures CandidateAsWritten(e, stringify).None? ==> c == ToDisplayString(e)
  {
    match e
    case ErrorInstance(m) => m
    case Text(s) => s
    case Record(m, err, _) =>
      if FieldTruthy(m) then m.value
      else if FieldTruthy(err) then err.value
      else (match stringify(e)
        case Serialized(json) => json
        case SerializedUndefined => ""
        case SerializationThrows => ToDisplayString(e))
    case _ => ToDisplayString(e)
  }

  /**
   * The best-effort refinement: when the candidate holds a `{...}` span that
   * parses to an object with a truthy `error`, that field replaces it;
   * otherwise the candidate stands.
   */
  function Refine(candidate: string, parse: Parse): (r: string)
    ensures r != candidate ==>
              && ErrorSpan.FindSpan(candidate).Some?
              && var (a, b) := ErrorSpan.FindSpan(candidate).value;
                 parse(candidate[a..b]) == ParsedObject(Some(r)) && r != ""
  {
    match ErrorSpan.FindSpan(candidate)
    case None => candidate
    case Some((a, b)) =>
      match parse(candidate[a..b])
      case ParsedObject(Some(err)) => if err != "" then err else candidate
      case _ => candidate
  }

  /** The outcome of rendering `ChatError`: nothing, a card with a text, or a thrown exception. */
  datatype Outcome = Hidden | Shown(text: string) | Throws

  /** `ChatError` as written: nothing exactly for a falsy value. */
  function NormalizeAsWritten(e: ErrorValue, stringify: Stringify, parse: Parse): (r: Outcome)
    ensures r == Hidden <==> !Truthy(e)
  {
    if !Truthy(e) then Hidden
    else match CandidateAsWritten(e, stringify)
      case None => Throws
      case Some(c) => Shown(Refine(c, parse))
  }

  /** `ChatError` with serialization failure caught: the text the card shows, or nothing. */
  function Normalize(e: ErrorValue, stringify: Stringify, parse: Parse): (r: Option<string>)
    ensures r.None? <==> !Truthy(e)
  {
    if !Truthy(e) then None else Some(Refine(Candidate(e, stringify), parse))
  }
}

module ChatErrorProperties {
  import opened Wrappers
  import opened ErrorSpan
  import opened ChatError

  /** Every falsy value shows nothing: undefined, null, false, 0 and the empty string. */
  lemma FalsyShowsNothing(stringify: Stringify, parse: Parse)
    ensures Normalize(Undefined, stringify, parse) == None
    ensures Normalize(Null, stringify, parse) == None
    ensures Normalize(Boolean(false), stringify, parse) == None
    ensures Normalize(Number(0), stringify, parse) == None
    ensures Normalize(Text(""), stringify, parse) == None
  {
  }

  /**
   * The fallback chain picks the first applicable source: an Error's message,
   * the string itself, an object's truthy `message`, its truthy `error`, its
   * serialization, and `String()` for everything else.
   */
  lemma CandidateFallbackChain(e: ErrorValue, stringify: Stringify)
    requires Truthy(e)
    ensures e.ErrorInstance? ==> Candidate(e, stringify) == e.message
    ensures e.Text? ==> Candidate(e, stringify) == e.s
    ensures e.Record? && FieldTruthy(e.messageField) ==> Candidate(e, stringify) == e.messageField.value
    ensures e.Record? && !FieldTruthy(e.messageField) && FieldTruthy(e.errorField) ==> Candidate(e, stringify) == e.errorField.value
    ensures e.Record? && !FieldTruthy(e.messageField) && !FieldTruthy(e.errorField) && stringify(e).Serialized?
            ==> Candidate(e, stringify) == stringify(e).json
    ensures (e.Boolean? || e.Number? || e.SymbolOrFunction?) ==> Candidate(e, stringify) == ToDisplayString(e)
  {
  }

  /** A candidate with no `{` at all is shown unchanged, whatever `JSON.parse` would do. */
  lemma RefineWithoutBrace(candidate: string, parse: Parse)
    requires forall k :: 0 <= k < |candidate| ==> candidate[k] != '{'
    ensures Refine(candidate, parse) == candidate
  {
    FindSpanIsLeftmostLongest(candidate);
  }

  /** The found span that parses to an object with a non-empty `error` string gives that string. */
  lemma RefineTakesParsedError(candidate: string, parse: Parse, a: nat, b: nat, err: string)
    requires FindSpan(candidate) == Some((a, b))
    requires parse(candidate[a..b]) == ParsedObject(Some(err)) && err != ""
    ensures Refine(candidate, parse) == err
  {
  }

  /**
   * Best effort: with no span, a span that does not parse, or a parsed object
   * whose `error` is absent or empty, the candidate is shown unchanged.
   */
  lemma RefineFallsBack(candidate: string, parse: Parse)
    requires FindSpan(candidate).Some? ==>
               var (a, b) := FindSpan(candidate).value;
               parse(candidate[a..b]) == SyntaxError || parse(candidate[a..b]) == ParsedObject(None)
               || parse(candidate[a..b]) == ParsedObject(Some(""))
    ensures Refine(candidate, parse) == candidate
  {
  }

  /** `{message: "x"}` shows `x`, `"plain"` shows `plain`, an Error with message `boom` shows `boom`. */
  lemma PlainExamples(stringify: Stringify, parse: Parse, others: map<string, string>)
    ensures Normalize(Record(Some("x"), None, others), stringify, parse) == Some("x")
    ensures Normalize(Text("plain"), stringify, parse) == Some("plain")
    ensures Normalize(ErrorInstance("boom"), stringify, parse) == Some("boom")
  {
  }

  /** `{}` serializes to `{}`, which parses to an object without `error`, so `{}` is shown. */
  lemma EmptyObjectExample(stringify: Stringify, parse: Parse)
    requires stringify(Record(None, None, map[])) == Serialized("{}")
    requires parse("{}") == ParsedObject(None)
    ensures Normalize(Record(None, None, map[]), stringify, parse) == Some("{}")
  {
    var s := "{}";
    assert MatchesAt(s, 0, 2);
    FindSpanIsUnique(s, 0, 2);
    assert s[0..2] == s;
  }

  /**
   * A `{...}` object on one line, preceded by text without `{` and followed
   * by text without `}`, is exactly the span found.
   */
  lemma {:induction false} SpanBetweenPlainText(prefix: string, json: string, suffix: string)
    requires MatchesAt(json, 0, |json|)
    requires forall k :: 0 <= k < |prefix| ==> prefix[k] != '{'
    requires forall k :: 0 <= k < |suffix| ==> suffix[k] != '}'
    ensures FindSpan(prefix + json + suffix) == Some((|prefix|, |prefix| + |json|))
  {
    var s, a, b := prefix + json + suffix, |prefix|, |prefix| + |json|;
    assert MatchesAt(s, a, b) by {
      forall k | a <= k < b ensures s[k] == json[k - a] { }
    }
    forall a': nat, b': nat | a' < a ensures !MatchesAt(s, a', b') {
      assert s[a'] == prefix[a'];
    }
    forall b': nat | b < b' ensures !MatchesAt(s, a, b') {
      if b' <= |s| {
        assert s[b' - 1] == suffix[b' - 1 - b];
      }
    }
    FindSpanIsUnique(s, a, b);
  }

  /**
   * In `prefix {"error":"bad key"} suffix` the span is exactly the JSON object.
   * The example is given as its three pieces, fixed by `requires`, so that the
   * proof goes through `SpanBetweenPlainText` instead of unfolding the search
   * character by character over one literal string.
   */
  lemma EmbeddedErrorSpan(prefix: string, json: string, suffix: string)
    requires prefix == "prefix " && json == "{\"error\":\"bad key\"}" && suffix == " suffix"
    ensures FindSpan(prefix + json + suffix) == Some((7, 26))
    ensures (prefix + json + suffix)[7..26] == json
  {
    EmbeddedPieces(prefix, json, suffix);
    SpanBetweenPlainText(prefix, json, suffix);
    assert (prefix + json + suffix)[7..26] == json;
  }

  /** The pieces of the embedded example (given as in `EmbeddedErrorSpan`) meet the conditions of `SpanBetweenPlainText`. */
  lemma EmbeddedPieces(prefix: string, json: string, suffix: string)
    requires prefix == "prefix " && json == "{\"error\":\"bad key\"}" && suffix == " suffix"
    ensures MatchesAt(json, 0, |json|)
    ensures forall k :: 0 <= k < |prefix| ==> prefix[k] != '{'
    ensures forall k :: 0 <= k < |suffix| ==> suffix[k] != '}'
  {
  }

  /**
   * An embedded JSON object with an `error` field replaces the whole string
   * with that field. The message is given as its pieces, as in `EmbeddedErrorSpan`.
   */
  lemma EmbeddedErrorExample(prefix: string, json: string, suffix: string, stringify: Stringify, parse: Parse)
    requires prefix == "prefix " && json == "{\"error\":\"bad key\"}" && suffix == " suffix"
    requires parse(json) == ParsedObject(Some("bad key"))
    ensures Normalize(Text(prefix + json + suffix), stringify, parse) == Some("bad key")
  {
    EmbeddedErrorSpan(prefix, json, suffix);
  }

  /** The span is greedy within a line: it runs to the last `}` of the line. */
  lemma SpanIsGreedyOnLine()
    ensures FindSpan("{a} {b}") == Some((0, 7))
  {
  }

  /** The span never crosses a line break. */
  lemma SpanStopsAtLineBreak()
    ensures FindSpan("{a}\n{b}") == Some((0, 3))
  {
  }

  /**
   * As written, rendering throws exactly for an object whose `message` and
   * `error` are both falsy and whose serialization throws.
   */
  lemma AsWrittenThrowsOnlyOnUnserializable(e: ErrorValue, stringify: Stringify, parse: Parse)
    ensures NormalizeAsWritten(e, stringify, parse) == Throws
            <==> e.Record? && !FieldTruthy(e.messageField) && !FieldTruthy(e.errorField) && stringify(e) == SerializationThrows
  {
  }

  /** The failing input: an object without `message` or `error` that `JSON.stringify` cannot serialize. */
  lemma UnserializableObjectThrows(parse: Parse)
    ensures NormalizeAsWritten(Record(None, None, map["self" := "[Circular]"]), v => SerializationThrows, parse) == Throws
  {
  }

  /**
   * The corrected normalizer never throws and agrees with the code as written
   * wherever that does not throw; for an unserializable object it shows the
   * generic `String()` text.
   */
  lemma CorrectedAgreesExceptWhenThrowing(e: ErrorValue, stringify: Stringify, parse: Parse)
    ensures NormalizeAsWritten(e, stringify, parse) == Hidden ==> Normalize(e, stringify, parse) == None
    ensures NormalizeAsWritten(e, stringify, parse).Shown? ==>
              Normalize(e, stringify, parse) == Some(NormalizeAsWritten(e, stringify, parse).text)
    ensures NormalizeAsWritten(e, stringify, parse) == Throws ==>
              Normalize(e, stringify, parse) == Some("[object Object]")
  {
    if Truthy(e) {
      match CandidateAsWritten(e, stringify)
      case None =>
        assert e.Record? && Candidate(e, stringify) == ToDisplayString(e) == "[object Object]";
        RefineWithoutBrace("[object Object]", parse);
      case Some(c) =>
        assert Candidate(e, stringify) == c;
    }
  }
}
