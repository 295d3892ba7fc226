/** `browserHTMLWalker`: which tags stay self-closing, told by a stack of the open foreign elements. */
module HTMLWalker {
  import opened Markup

  datatype Namespace = HTML | SVG | MathML

  datatype Frame = Frame(name: string, namespace: Namespace, integratesHTML: bool)

  type Stack = seq<Frame>

  function Current(stack: Stack): Namespace {
    if stack == [] || stack[|stack| - 1].integratesHTML then HTML else stack[|stack| - 1].namespace
  }

  /** Tags that end foreign content wherever they stand. */
  predicate Breakout(name: string, attributes: Attributes) {
    name in {"b", "big", "blockquote", "body", "br", "center", "code", "dd", "div", "dl", "dt", "em", "embed",
             "form", "h1", "h2", "h3", "h4", "h5", "h6", "head", "hr", "i", "img", "li", "listing", "menu", "meta",
             "nobr", "ol", "p", "pre", "ruby", "s", "small", "span", "strong", "strike", "sub", "sup", "table", "tt",
             "u", "ul", "var"} ||
    (name == "font" && ("color" in attributes || "face" in attributes || "size" in attributes))
  }

  predicate IntegrationPoint(namespace: Namespace, name: string, attributes: Attributes) {
    match namespace
    case SVG => name in {"foreignobject", "desc", "title"}
    case MathML =>
      var encoding := ToLower(Attr(attributes, "encoding"));
      name in {"mi", "mo", "mn", "ms", "mtext"} ||
      (name == "annotation-xml" && (encoding == "text/html" || encoding == "application/xhtml+xml"))
    case HTML => false
  }

  function Close(stack: Stack, name: string): Stack {
    if stack == [] then []
    else if stack[|stack| - 1].name == name then stack[..|stack| - 1]
    else
      var below := Close(stack[..|stack| - 1], name);
      if below == stack[..|stack| - 1] then stack else below
  }

  function Broken(stack: Stack, name: string, attributes: Attributes): Stack {
    if !Current(stack).HTML? && Breakout(name, attributes) then [] else stack
  }

  function Opened(stack: Stack, name: string, attributes: Attributes): Stack {
    match Current(stack)
    case HTML =>
      if name == "svg" then stack + [Frame(name, SVG, false)]
      else if name == "math" then stack + [Frame(name, MathML, false)]
      else stack
    case namespace => stack + [Frame(name, namespace, IntegrationPoint(namespace, name, attributes))]
  }

  /** HTML ignores the slash on non-void elements; foreign elements and their roots keep it. */
  predicate KeepsSlash(stack: Stack, name: string) {
    !Current(stack).HTML? || name == "svg" || name == "math" || IsVoid(name)
  }

  /** The stack after a raw token, and the token handed on. */
  function Next(stack: Stack, token: Token): (Stack, Token) {
    match token
    case Text(_) => (stack, token)
    case Other => (stack, token)
    case End(name) => (Close(stack, name), token)
    case Start(name, attributes) =>
      var s := Broken(stack, name, attributes);
      (Opened(s, name, attributes), token)
    case SelfClosing(name, attributes) =>
      var s := Broken(stack, name, attributes);
      if KeepsSlash(s, name) then (s, token) else (Opened(s, name, attributes), Start(name, attributes))
  }

  class BrowserHTMLWalker {
    var stack: Stack

    constructor ()
      ensures stack == []
    {
      stack := [];
    }

    method CloseElement(name: string)
      modifies this
      ensures stack == Close(old(stack), name)
    {
      var index := |stack| - 1;
      assert stack[..|stack|] == stack;
      while index >= 0
        invariant -1 <= index < |stack| && stack == old(stack)
        invariant forall k | index < k < |stack| :: stack[k].name != name
      {
        if stack[index].name == name {
          CloseAt(stack, name, index);
          stack := stack[..index];
          return;
        }
        index := index - 1;
      }
      CloseNone(stack, name);
    }

    method NextToken(raw: Token) returns (token: Token)
      modifies this
      ensures (stack, token) == Next(old(stack), raw)
    {
      token := raw;
      if raw.Text? || raw.Other? { return; }
      var name := raw.name;
      if raw.End? {
        CloseElement(name);
        return;
      }
      var namespace := Current(stack);
      if !namespace.HTML? && Breakout(name, raw.attributes) {
        stack := [];
        namespace := HTML;
      }
      if raw.SelfClosing? && namespace.HTML? && name != "svg" && name != "math" && !IsVoid(name) {
        token := Start(name, raw.attributes);
      }
      if !token.SelfClosing? {
        if namespace.HTML? {
          if name == "svg" {
            stack := stack + [Frame(name, SVG, false)];
          } else if name == "math" {
            stack := stack + [Frame(name, MathML, false)];
          }
        } else {
          stack := stack + [Frame(name, namespace, IntegrationPoint(namespace, name, raw.attributes))];
        }
      }
    }
  }

  lemma {:induction false} CloseAt(stack: Stack, name: string, index: nat)
    requires index < |stack| && stack[index].name == name
    requires forall k | index < k < |stack| :: stack[k].name != name
    ensures Close(stack, name) == stack[..index]
    decreases |stack|
  {
    if index < |stack| - 1 {
      CloseAt(stack[..|stack| - 1], name, index);
      assert stack[..|stack| - 1][..index] == stack[..index];
    }
  }

  lemma {:induction false} CloseNone(stack: Stack, name: string)
    requires forall k | 0 <= k < |stack| :: stack[k].name != name
    ensures Close(stack, name) == stack
    decreases |stack|
  {
    if stack != [] {
      CloseNone(stack[..|stack| - 1], name);
    }
  }

  // ---- One tag ----

  /** The innermost open element is foreign and does not take HTML content. */
  predicate InForeign(stack: Stack) {
    stack != [] && !stack[|stack| - 1].integratesHTML && stack[|stack| - 1].namespace != HTML
  }

  /** In foreign content the listed tags close all of it and are read as HTML. Any other tag is handed on with its
      slash, and one without opens an element of the same namespace, which takes HTML content when it is an
      integration point. */
  lemma TagInForeign(stack: Stack, token: Token)
    requires InForeign(stack) && (token.Start? || token.SelfClosing?)
    ensures var (after, handed), name, attributes := Next(stack, token), token.name, token.attributes;
      var namespace := stack[|stack| - 1].namespace;
      if name in {"b", "big", "blockquote", "body", "br", "center", "code", "dd", "div", "dl", "dt", "em", "embed",
                  "h1", "h2", "h3", "h4", "h5", "h6", "head", "hr", "i", "img", "li", "listing", "menu", "meta",
                  "nobr", "ol", "p", "pre", "ruby", "s", "small", "span", "strong", "strike", "sub", "sup", "table",
                  "tt", "u", "ul", "var", "form"}
         || (name == "font" && ("color" in attributes || "face" in attributes || "size" in attributes))
      then
        && after == []
        && handed == (if name in {"br", "embed", "hr", "img", "meta"} then token else Start(name, attributes))
      else
        && handed == token
        && (token.SelfClosing? ==> after == stack)
        && (token.Start? ==> |after| == |stack| + 1 && after[..|stack|] == stack)
        && (token.Start? ==>
              && after[|stack|].name == name && after[|stack|].namespace == namespace
              && (namespace == SVG ==>
                    (after[|stack|].integratesHTML <==> name in {"foreignobject", "desc", "title"}))
              && (namespace == MathML ==>
                    (after[|stack|].integratesHTML <==>
                     || name in {"mi", "mo", "mn", "ms", "mtext"}
                     || (name == "annotation-xml" && "encoding" in attributes
                         && (Spells(attributes["encoding"], "text/html")
                             || Spells(attributes["encoding"], "application/xhtml+xml"))))))
  {
    hide Breakout, IntegrationPoint, Spells;
    BreakoutListed(token.name, token.attributes);
    IntegrationListed(token.name, token.attributes);
  }

  lemma BreakoutListed(name: string, attributes: Attributes)
    ensures Breakout(name, attributes) <==>
      || name in {"b", "big", "blockquote", "body", "br", "center", "code", "dd", "div", "dl", "dt", "em", "embed",
                  "h1", "h2", "h3", "h4", "h5", "h6", "head", "hr", "i", "img", "li", "listing", "menu", "meta",
                  "nobr", "ol", "p", "pre", "ruby", "s", "small", "span", "strong", "strike", "sub", "sup", "table",
                  "tt", "u", "ul", "var", "form"}
      || (name == "font" && ("color" in attributes || "face" in attributes || "size" in attributes))
    ensures Breakout(name, attributes) ==>
      name != "svg" && name != "math" && (IsVoid(name) <==> name in {"br", "embed", "hr", "img", "meta"})
  {
  }

  lemma IntegrationListed(name: string, attributes: Attributes)
    ensures IntegrationPoint(SVG, name, attributes) <==> name in {"foreignobject", "desc", "title"}
    ensures IntegrationPoint(MathML, name, attributes) <==>
      || name in {"mi", "mo", "mn", "ms", "mtext"}
      || (name == "annotation-xml" && "encoding" in attributes
          && (Spells(attributes["encoding"], "text/html") || Spells(attributes["encoding"], "application/xhtml+xml")))
  {
    hide Spells;
    assert "" != "text/html" && "" != "application/xhtml+xml";
  }

  /** In HTML content only `svg` and `math` open foreign content, and only they and void elements keep a slash. */
  lemma TagInHTML(stack: Stack, token: Token)
    requires !InForeign(stack) && (token.Start? || token.SelfClosing?)
    ensures var (after, handed), name := Next(stack, token), token.name;
      && handed == (if name in {"svg", "math", "area", "base", "br", "col", "embed", "hr", "img", "input", "link",
                                "meta", "source", "track", "wbr"}
                    then token else Start(name, token.attributes))
      && (token.Start? && name == "svg" ==> after == stack + [Frame("svg", SVG, false)])
      && (token.Start? && name == "math" ==> after == stack + [Frame("math", MathML, false)])
      && (token.SelfClosing? || name !in {"svg", "math"} ==> after == stack)
  {
  }

  // ---- Whole streams ----

  function Walk(tokens: seq<Token>): (Stack, seq<Token>) {
    if tokens == [] then ([], [])
    else
      var (stack, handed) := Walk(tokens[..|tokens| - 1]);
      var (stack', token) := Next(stack, tokens[|tokens| - 1]);
      (stack', handed + [token])
  }

  /** The frame stands directly in HTML content as a foreign root, or in the namespace of the frame below it. */
  predicate Rooted(stack: Stack, i: nat)
    requires i < |stack|
  {
    var root := (stack[i].name == "svg" && stack[i].namespace.SVG?) ||
                (stack[i].name == "math" && stack[i].namespace.MathML?);
    !stack[i].namespace.HTML? &&
    if i == 0 then root
    else if stack[i - 1].integratesHTML then root
    else stack[i].namespace == stack[i - 1].namespace
  }

  predicate AllRooted(stack: Stack) {
    forall i | 0 <= i < |stack| :: Rooted(stack, i)
  }

  lemma {:induction false} CloseIsPrefix(stack: Stack, name: string)
    ensures Close(stack, name) <= stack
  {
    if stack != [] {
      CloseIsPrefix(stack[..|stack| - 1], name);
    }
  }

  lemma PrefixRooted(stack: Stack, prefix: Stack)
    requires AllRooted(stack) && prefix <= stack
    ensures AllRooted(prefix)
  {
    forall i | 0 <= i < |prefix| ensures Rooted(prefix, i) {
      assert Rooted(stack, i);
    }
  }

  /** Foreign elements nest under an `svg` or `math` root, anew below each integration point. */
  lemma {:induction false} WalkRooted(tokens: seq<Token>)
    ensures AllRooted(Walk(tokens).0)
  {
    if tokens != [] {
      var token := tokens[|tokens| - 1];
      WalkRooted(tokens[..|tokens| - 1]);
      var stack := Walk(tokens[..|tokens| - 1]).0;
      if token.End? {
        CloseIsPrefix(stack, token.name);
        PrefixRooted(stack, Close(stack, token.name));
      } else if token.Start? || token.SelfClosing? {
        OpenedRooted(Broken(stack, token.name, token.attributes), token.name, token.attributes);
      }
    }
  }

  lemma OpenedRooted(stack: Stack, name: string, attributes: Attributes)
    requires AllRooted(stack)
    ensures AllRooted(Opened(stack, name, attributes))
  {
    var s := Opened(stack, name, attributes);
    forall i | 0 <= i < |s| ensures Rooted(s, i) {
      assert i < |stack| ==> Rooted(stack, i);
      assert stack != [] ==> Rooted(stack, |stack| - 1);
    }
  }

  predicate NoForeignRoot(tokens: seq<Token>) {
    forall token | token in tokens && (token.Start? || token.SelfClosing?) ::
      token.name != "svg" && token.name != "math"
  }

  predicate NoSlash(tokens: seq<Token>) {
    forall token | token in tokens && token.SelfClosing? :: IsVoid(token.name)
  }

  /** Only foreign content hands on a self-closing tag of a non-void element. */
  lemma {:induction false} SlashNeedsForeignRoot(tokens: seq<Token>)
    requires NoForeignRoot(tokens)
    ensures Walk(tokens).0 == [] && NoSlash(Walk(tokens).1)
  {
    if tokens != [] {
      SlashNeedsForeignRoot(tokens[..|tokens| - 1]);
      assert tokens[|tokens| - 1] in tokens;
    }
  }

  /** Text, end tags and order are kept; a tag changes at most its slash. */
  lemma {:induction false} WalkKeepsTags(tokens: seq<Token>)
    ensures |Walk(tokens).1| == |tokens|
    ensures forall i | 0 <= i < |tokens| ::
      Walk(tokens).1[i] == tokens[i] ||
      (tokens[i].SelfClosing? && Walk(tokens).1[i] == Start(tokens[i].name, tokens[i].attributes)
       && !IsVoid(tokens[i].name))
  {
    if tokens != [] {
      WalkKeepsTags(tokens[..|tokens| - 1]);
    }
  }
}
