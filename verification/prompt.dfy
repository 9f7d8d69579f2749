/** Prompt classification and the four prompt templates of `CodeGenerator`:
    the keys of `prompt_methods`, `_extract_prompt_type`, and the strings
    that the four `_generate_*` methods hand to `generate`. */
module Prompt {
  import opened Results
  import opened PyStr

  /** One style per entry of `prompt_methods`. */
  datatype Style = FillInTheMiddle | FunctionSignature | Comment | Docstring

  /** The dictionary key that names each style. */
  function Key(style: Style): string
  {
    match style
    case FillInTheMiddle => "Fill in the Middle"
    case FunctionSignature => "Function Signature"
    case Comment => "Comment"
    case Docstring => "Docstring"
  }

  /** The keys of `prompt_methods` in insertion order, which is the order
      in which `_extract_prompt_type` tries them. */
  const KeyOrder: seq<Style> := [FillInTheMiddle, FunctionSignature, Comment, Docstring]

  /** The loop's test: the (stripped) input starts with the key. The source
      strips the key first, which changes nothing (see `KeysTrimmed`). */
  predicate KeyMatches(text: string, style: Style)
  {
    StartsWith(text, Key(style))
  }

  /** The position in `order` of the first style whose key starts `text`. */
  function FirstMatch(text: string, order: seq<Style>): (r: Option<nat>)
    ensures r.Some? ==> r.value < |order| && KeyMatches(text, order[r.value])
    ensures r.Some? ==> forall j :: 0 <= j < r.value ==> !KeyMatches(text, order[j])
    ensures r.None? ==> forall j :: 0 <= j < |order| ==> !KeyMatches(text, order[j])
    decreases |order|
  {
    if |order| == 0 then None
    else if KeyMatches(text, order[0]) then Some(0)
    else match FirstMatch(text, order[1..])
      case None => None
      case Some(k) => Some(k + 1)
  }

  /** The loop of `_extract_prompt_type` over a dictionary whose keys come
      in `order`: the first key the stripped text starts with, else the
      default. */
  function ClassifyTextIn(order: seq<Style>, text: string): Style
  {
    match FirstMatch(text, order)
    case Some(i) => order[i]
    case None => FillInTheMiddle
  }

  /** The loop of `_extract_prompt_type` over the keys in insertion order.
      Because no key is a prefix of another, the style returned is the only
      one whose key starts the text, if there is one. */
  function ClassifyText(text: string): (r: Style)
    ensures r != FillInTheMiddle ==> KeyMatches(text, r)
    ensures forall style :: KeyMatches(text, style) ==> r == style
  {
    var r := ClassifyTextIn(KeyOrder, text);
    forall style | KeyMatches(text, style)
      ensures r == style
    {
      var i := KeyOrderIndex(style);
      var f := FirstMatch(text, KeyOrder);
      assert f.Some? && f.value <= i;
      KeyMatchUnique(text, KeyOrder[f.value], style);
    }
    r
  }

  /** `_extract_prompt_type`: strip the input, then walk the keys. */
  function Classify(input: string): Style
  {
    ClassifyText(Strip(input))
  }

  /** No key has surrounding whitespace, so the `strip()` at line 73 is a no-op. */
  lemma KeysTrimmed()
    ensures forall style :: Strip(Key(style)) == Key(style)
  {
    forall style
      ensures Strip(Key(style)) == Key(style)
    {
      StripTrimmed(Key(style));
    }
  }

  /** No key is a prefix of a different key. */
  lemma KeysPrefixFree()
    ensures forall a, b :: a != b ==> !StartsWith(Key(a), Key(b))
  {
    forall a, b | a != b
      ensures !StartsWith(Key(a), Key(b))
    {
      if Key(a)[0] == Key(b)[0] {
        assert Key(a)[1] != Key(b)[1];
      }
    }
  }

  /** At most one key can start a given text. */
  lemma KeyMatchUnique(text: string, a: Style, b: Style)
    requires KeyMatches(text, a) && KeyMatches(text, b)
    ensures a == b
  {
    KeysPrefixFree();
    var ka, kb := Key(a), Key(b);
    var n := if |ka| <= |kb| then |ka| else |kb|;
    assert ka[..n] == text[..n] == kb[..n];
  }

  /** A style other than the default is returned exactly when the text
      starts with its key. */
  lemma ClassifyNamedStyle(text: string, style: Style)
    requires style != FillInTheMiddle
    ensures ClassifyText(text) == style <==> StartsWith(text, Key(style))
  {
    var r := ClassifyText(text);
    assert r == style ==> KeyMatches(text, r);
    assert KeyMatches(text, style) ==> r == style;
  }

  /** The default is returned exactly when the text starts with the
      default's own key or with no key at all. */
  lemma ClassifyDefault(text: string)
    ensures ClassifyText(text) == FillInTheMiddle <==>
      (StartsWith(text, Key(FillInTheMiddle)) || forall style :: !StartsWith(text, Key(style)))
  {
  }

  function KeyOrderIndex(style: Style): (i: nat)
    ensures i < |KeyOrder| && KeyOrder[i] == style
  {
    match style
    case FillInTheMiddle => 0
    case FunctionSignature => 1
    case Comment => 2
    case Docstring => 3
  }

  /** Since at most one key matches, the dictionary's insertion order does
      not affect the result: any order listing every style classifies alike. */
  lemma {:induction false} ClassifyOrderIrrelevant(order: seq<Style>, text: string)
    requires forall style :: style in order
    ensures ClassifyTextIn(order, text) == ClassifyText(text)
  {
    match FirstMatch(text, order)
    case Some(i) =>
    case None =>
      var r := ClassifyText(text);
      assert r in order;
      var i :| 0 <= i < |order| && order[i] == r;
      assert !KeyMatches(text, order[i]);
  }

  /** Classification ignores surrounding whitespace, so stripping the input
      before classifying it (line 53) and again inside it (line 71) agree. */
  lemma ClassifyIgnoresWhitespace(input: string)
    ensures Classify(Strip(input)) == Classify(input)
  {
    StripIdempotent(input);
  }

  /** Every key starts with `F`, `C` or `D`, so an input whose first
      non-whitespace character is anything else matches no key and falls
      through to the default. That includes inputs opening with the `def `,
      `# ` and `"""` markers that the renderers cut off. */
  lemma {:induction false} UnnamedInputsDefault(pad: string, rest: string)
    requires AllSpace(pad)
    requires |rest| > 0 && !IsSpace(rest[0]) && rest[0] !in {'F', 'C', 'D'}
    ensures Classify(pad + rest) == FillInTheMiddle
  {
    StripSkipsLeadingSpace(pad, rest);
    UnpaddedInputsDefault(rest);
  }

  lemma {:induction false} UnpaddedInputsDefault(input: string)
    requires |input| > 0 && !IsSpace(input[0]) && input[0] !in {'F', 'C', 'D'}
    ensures Classify(input) == FillInTheMiddle
  {
    assert input[..1] + input[1..] == input;
    StripKeepsStart(input[..1], input[1..]);
    var text := Strip(input);
    assert text[0] == input[0];
    forall style
      ensures !StartsWith(text, Key(style))
    {
      assert Key(style)[0] in {'F', 'C', 'D'};
    }
  }

  /** Whatever follows the `def `, `# ` or `"""` marker, or the
      `<fim_prefix>` tag, the input classifies as "Fill in the Middle". */
  lemma MarkedInputsDefault(marker: string, rest: string)
    requires marker in {"<fim_prefix>", "def ", "# ", "\"\"\""}
    ensures Classify(marker + rest) == FillInTheMiddle
  {
    assert marker[0] in {'<', 'd', '#', '"'};
    assert (marker + rest)[0] == marker[0];
    UnpaddedInputsDefault(marker + rest);
  }

  /** The four example inputs of the module-level script (each written as
      its opening marker followed by the rest) classify as "Fill in the
      Middle", including the function-signature, comment and docstring
      examples. */
  lemma ExampleInputsDefault()
    ensures Classify("<fim_prefix>" + "Initialize a list with 10 elements") == FillInTheMiddle
    ensures Classify("def " + "multiply(a, b):") == FillInTheMiddle
    ensures Classify("# " + "This function calculates the factorial of a number") == FillInTheMiddle
    ensures Classify("\"\"\"" + "This function performs matrix multiplication\"\"\"") == FillInTheMiddle
  {
    MarkedInputsDefault("<fim_prefix>", "Initialize a list with 10 elements");
    MarkedInputsDefault("def ", "multiply(a, b):");
    MarkedInputsDefault("# ", "This function calculates the factorial of a number");
    MarkedInputsDefault("\"\"\"", "This function performs matrix multiplication\"\"\"");
  }
}
