/** The strings that `_generate_fill_in_the_middle`,
    `_generate_function_signature`, `_generate_comment` and
    `_generate_docstring` pass to `generate`, built from the stripped input.
    Each template cuts a fixed number of characters off the input with a
    Python slice (which clamps instead of failing), strips what is left, and
    wraps it. */
module Templates {
  import opened PyStr
  import opened Prompt

  /** The slice each method takes of the input: `input_text[4:]`,
      `input_text[2:]` or `input_text[3:-3]`; fill-in-the-middle keeps it all. */
  function Fragment(style: Style, text: string): (r: string)
    ensures |r| <= |text|
  {
    match style
    case FillInTheMiddle => text
    case FunctionSignature => SliceFrom(text, 4)
    case Comment => SliceFrom(text, 2)
    case Docstring => Slice(text, 3, -3)
  }

  /** The `signature`, `comment` or `docstring` local: the slice, stripped. */
  function Body(style: Style, text: string): string
  {
    Strip(Fragment(style, text))
  }

  /** The template text written before the body. */
  function Opener(style: Style): string
  {
    match style
    case FillInTheMiddle => ""
    case FunctionSignature => "def "
    case Comment => "# "
    case Docstring => "\"\"\" "
  }

  /** The template text written after the body. */
  function Closer(style: Style): string
  {
    match style
    case FillInTheMiddle => ""
    case FunctionSignature => ":"
    case Comment => "\n"
    case Docstring => " \"\"\"\n"
  }

  /** The prompt handed to `generate` by the method registered for `style`. */
  function Render(style: Style, text: string): string
  {
    if style == FillInTheMiddle then text
    else Opener(style) + Body(style, text) + Closer(style)
  }

  /** A named-style prompt is the template's opener and closer around a
      whitespace-free piece of the cut input that has only whitespace
      around it there. */
  lemma RenderShape(style: Style, text: string)
    requires style != FillInTheMiddle
    ensures
      var r := Render(style, text);
      var o, c := Opener(style), Closer(style);
      && |o| + |c| <= |r|
      && r[..|o|] == o
      && r[|r| - |c|..] == c
      && Trimmed(r[|o|..|r| - |c|])
    ensures
      var r := Render(style, text);
      var middle := r[|Opener(style)|..|r| - |Closer(style)|];
      exists lo :: Frames(Fragment(style, text), lo, middle)
  {
    Wrapped(Opener(style), Body(style, text), Closer(style));
  }

  /** The pieces of `o + b + c` can be read back off it. */
  lemma Wrapped(o: string, b: string, c: string)
    ensures
      var r := o + b + c;
      && |o| + |c| <= |r|
      && r[..|o|] == o
      && r[|r| - |c|..] == c
      && r[|o|..|r| - |c|] == b
  {
  }

  /** `def <signature>:` — the first four characters are dropped whatever
      they are, and the surrounding whitespace of the rest is removed. */
  lemma {:induction false} SignatureTemplate(head: string, pad: string, signature: string, post: string)
    requires |head| == 4 && AllSpace(pad) && AllSpace(post) && Trimmed(signature)
    ensures Render(FunctionSignature, head + pad + signature + post) == "def " + signature + ":"
  {
    var text := head + pad + signature + post;
    assert SliceFrom(text, 4) == pad + signature + post;
    StripPadded(pad, signature, post);
  }

  /** `# <comment>\n` — the first two characters are dropped whatever they are. */
  lemma {:induction false} CommentTemplate(head: string, pad: string, comment: string, post: string)
    requires |head| == 2 && AllSpace(pad) && AllSpace(post) && Trimmed(comment)
    ensures Render(Comment, head + pad + comment + post) == "# " + comment + "\n"
  {
    var text := head + pad + comment + post;
    assert SliceFrom(text, 2) == pad + comment + post;
    StripPadded(pad, comment, post);
  }

  /** `""" <docstring> """\n` — three characters are dropped from each end
      whatever they are. */
  lemma {:induction false} DocstringTemplate(head: string, pad: string, docstring: string, post: string, tail: string)
    requires |head| == 3 && |tail| == 3 && AllSpace(pad) && AllSpace(post) && Trimmed(docstring)
    ensures Render(Docstring, head + pad + docstring + post + tail) == "\"\"\" " + docstring + " \"\"\"\n"
  {
    var text := head + pad + docstring + post + tail;
    SliceInner(text, 3);
    assert Slice(text, 3, -3) == pad + docstring + post;
    StripPadded(pad, docstring, post);
  }

  /** Slicing clamps, so inputs too short for the cut give an empty body
      rather than an error. */
  lemma ShortInputsEmptyBody(text: string)
    ensures |text| <= 4 ==> Render(FunctionSignature, text) == "def :"
    ensures |text| <= 2 ==> Render(Comment, text) == "# \n"
    ensures |text| <= 6 ==> Render(Docstring, text) == "\"\"\"  \"\"\"\n"
  {
    StripTrimmed([]);
    if |text| <= 4 {
      ShortCut(FunctionSignature, text);
    }
    if |text| <= 2 {
      ShortCut(Comment, text);
    }
    if |text| <= 6 {
      ShortCut(Docstring, text);
    }
  }

  /** Each named style's cut of a text no longer than what it drops is empty. */
  lemma ShortCut(style: Style, text: string)
    requires style != FillInTheMiddle
    requires style == FunctionSignature ==> |text| <= 4
    requires style == Comment ==> |text| <= 2
    requires style == Docstring ==> |text| <= 6
    ensures Fragment(style, text) == []
  {
    if style == Docstring {
      SliceInner(text, 3);
    }
  }

  /** The signature example keeps its own colon and gains the template's. */
  lemma SignatureExample()
    ensures Render(FunctionSignature, "def " + "multiply(a, b):") == "def " + "multiply(a, b):" + ":"
  {
    var signature := "multiply(a, b):";
    assert signature[0] == 'm' && signature[|signature| - 1] == ':';
    assert "def " + [] + signature + [] == "def " + signature;
    SignatureTemplate("def ", [], signature, []);
  }

  /** The docstring example loses its own quotes and gains the template's. */
  lemma DocstringExample()
    ensures Render(Docstring, "\"\"\"" + "This function performs matrix multiplication" + "\"\"\"")
         == "\"\"\" " + "This function performs matrix multiplication" + " \"\"\"\n"
  {
    var docstring := "This function performs matrix multiplication";
    assert docstring[0] == 'T' && docstring[|docstring| - 1] == 'n';
    var quotes := "\"\"\"";
    assert quotes + docstring + quotes == quotes + [] + docstring + [] + quotes;
    DocstringTemplate(quotes, [], docstring, [], quotes);
  }

  /** Cutting `k` characters off a text that starts with `key` leaves a
      body that starts with the rest of the key. */
  lemma CutKeepsKeyRest(text: string, key: string, k: nat, rest: string)
    requires StartsWith(text, key) && k < |key|
    requires |rest| > 0 && Trimmed(rest) && StartsWith(key[k..], rest)
    ensures StartsWith(Strip(SliceFrom(text, k)), rest)
  {
    var tail := text[k + |rest|..];
    assert SliceFrom(text, k) == rest + tail;
    StripKeepsStart(rest, tail);
  }

  /** A stripped input that classifies as "Function Signature" loses the
      first four letters of that key to the cut, so the `signature` put in
      the template starts with "tion Signature": the template expects a
      `def ` marker, which the classifier never routes to it. */
  lemma ClassifiedSignature(text: string)
    requires ClassifyText(text) == FunctionSignature
    ensures StartsWith(Body(FunctionSignature, text), "tion Signature")
  {
    assert KeyMatches(text, FunctionSignature);
    var rest := "tion Signature";
    assert Key(FunctionSignature)[4..] == rest;
    CutKeepsKeyRest(text, Key(FunctionSignature), 4, rest);
  }

  /** A stripped input that classifies as "Comment" loses the first two
      letters of that key to the cut, where the template expects `# `. */
  lemma ClassifiedComment(text: string)
    requires ClassifyText(text) == Comment
    ensures StartsWith(Body(Comment, text), "mment")
  {
    assert KeyMatches(text, Comment);
    var rest := "mment";
    assert Key(Comment)[2..] == rest;
    CutKeepsKeyRest(text, Key(Comment), 2, rest);
  }

  /** A stripped input that classifies as "Docstring" loses the first three
      letters of that key to the cut, where the template expects `"""`. */
  lemma ClassifiedDocstring(text: string)
    requires ClassifyText(text) == Docstring
    ensures StartsWith(Body(Docstring, text), "str")
  {
    assert KeyMatches(text, Docstring);
    DocstringKeyCut(text);
  }

  lemma DocstringKeyCut(text: string)
    requires StartsWith(text, Key(Docstring))
    ensures StartsWith(Body(Docstring, text), "str")
  {
    var rest := "str";
    var key := Key(Docstring);
    assert text[..9] == key;
    assert text[3] == key[3] && text[4] == key[4] && text[5] == key[5];
    assert text[3..6] == rest;
    var tail := text[6..|text| - 3];
    SliceInner(text, 3);
    assert Slice(text, 3, -3) == rest + tail;
    StripKeepsStart(rest, tail);
  }
}
