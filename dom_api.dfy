/** The DOM API mapping of the no-imperative-dom-api lint rule
    (scripts/eslint_rules/lib/no-imperative-dom-api/dom-api.js): handlers that
    recognise imperative DOM property assignments and method calls and record them
    on a DOM fragment as classes, attributes, styles, text and child insertions.
    The AST helpers `isIdentifier`/`isLiteral` are modelled on a small node type, and
    the fragment's own `appendChild`/`insertChildAt` (not part of this model) are
    recorded as calls on the fragment they are made on. */
module DomApi {
  import opened Wrappers
  import opened Strings

  datatype LiteralValue = StringLit(s: string) | BoolLit(b: bool) | NumLit(n: int) | NullLit

  datatype NodeKind = Identifier(name: string) | Literal(value: LiteralValue) | SpreadElement | OtherNode

  /** An AST node; `id` stands for the node's identity. */
  datatype Node = Node(id: nat, kind: NodeKind)

  /** `isIdentifier(node, names)` */
  predicate IsIdentifierIn(node: Node, names: set<string>)
  {
    node.kind.Identifier? && node.kind.name in names
  }

  /** `isLiteral(node, value)` */
  predicate IsLiteral(node: Node, value: LiteralValue)
  {
    node.kind == Literal(value)
  }

  /** An attribute or style value: the assigned node, or the template text '${true}'. */
  datatype AttrValue = NodeValue(node: Node) | TemplateTrue

  datatype Attribute = Attribute(key: string, value: AttrValue)

  /** A call the handlers make on a fragment's child list. */
  datatype ChildCall = AppendChild(child: Node) | InsertChildAt(child: Node, index: int)

  /** methodCall either handles the call, leaves it, or throws (`null.toString()`). */
  datatype CallOutcome = Handled | NotHandled | Threw

  /** A reference from the source code to the node a fragment was created for. */
  class Reference {
    const node: Node
    var processed: bool

    constructor (n: Node)
      ensures node == n && !processed
    {
      node := n;
      processed := false;
    }
  }

  class DomFragment {
    var classList: seq<Node>
    var textContent: Option<Node>
    var attributes: seq<Attribute>
    var style: seq<Attribute>
    var children: seq<DomFragment>
    var parent: DomFragment?
    var references: seq<Reference>
    var childCalls: seq<ChildCall>

    constructor ()
      ensures classList == [] && textContent == None && attributes == [] && style == []
      ensures children == [] && parent == null && references == [] && childCalls == []
    {
      classList := [];
      textContent := None;
      attributes := [];
      style := [];
      children := [];
      parent := null;
      references := [];
      childCalls := [];
    }
  }

  const TextProperties: set<string> := {"textContent", "innerHTML", "innerText"}

  const AttributeProperties: set<string> := {
    "alt", "draggable", "height", "hidden", "href", "id", "name", "placeholder", "rel", "scope", "slot",
    "spellcheck", "src", "tabindex", "title", "type", "value", "width"
  }

  const BooleanProperties: set<string> := {"checked", "disabled"}

  const AssignableProperties: set<string> := {"className"} + TextProperties + AttributeProperties + BooleanProperties

  // ---------------------------------------------------------------------------
  // camelCase to kebab-case

  /** `name.replace(/([a-z])([A-Z])/g, '$1-$2')`: the matches are found left to
      right without overlapping, so after a pair the scan resumes behind it. */
  function InsertDashes(s: string): (r: string)
    ensures |r| >= |s|
    ensures |s| >= 2 && IsLowerAscii(s[0]) && IsUpperAscii(s[1]) ==> |r| >= 3 && r[..3] == [s[0], '-', s[1]]
    ensures |s| >= 1 && !(|s| >= 2 && IsLowerAscii(s[0]) && IsUpperAscii(s[1])) ==> |r| >= 1 && r[0] == s[0]
    decreases |s|
  {
    if |s| < 2 then s
    else if IsLowerAscii(s[0]) && IsUpperAscii(s[1]) then [s[0], '-', s[1]] + InsertDashes(s[2..])
    else [s[0]] + InsertDashes(s[1..])
  }

  /** The style key for `style.name`: dashes inserted, then lowercased. */
  function Kebab(name: string): (r: string)
    ensures |r| >= |name|
    ensures |name| >= 1 ==> r[0] == LowerChar(name[0])
    ensures |name| >= 2 && IsLowerAscii(name[0]) && IsUpperAscii(name[1]) ==> |r| >= 3 && r[1] == '-' && r[2] == LowerChar(name[1])
  {
    Lower(InsertDashes(name))
  }

  /** The inverse direction: each `-` before a lowercase letter is dropped and the
      letter upper-cased. */
  function Camelize(k: string): (r: string)
    ensures |r| <= |k|
    decreases |k|
  {
    if |k| < 2 then k
    else if k[0] == '-' && IsLowerAscii(k[1]) then [UpperChar(k[1])] + Camelize(k[2..])
    else [k[0]] + Camelize(k[1..])
  }

  /** A camelCase identifier as the replacement expects it: no dashes, and every
      ASCII capital directly follows an ASCII lowercase letter. */
  predicate IsCamelCase(s: string)
  {
    && (forall i :: 0 <= i < |s| ==> s[i] != '-')
    && (forall i :: 0 <= i < |s| && IsUpperAscii(s[i]) ==> i > 0 && IsLowerAscii(s[i - 1]))
  }

  lemma LowerAppend(a: string, b: string)
    ensures Lower(a + b) == Lower(a) + Lower(b)
  {
  }

  /** One step of the replacement, after lowercasing. */
  lemma KebabUnfold(s: string)
    requires |s| >= 2
    ensures IsLowerAscii(s[0]) && IsUpperAscii(s[1]) ==> Kebab(s) == [s[0], '-', LowerChar(s[1])] + Kebab(s[2..])
    ensures !(IsLowerAscii(s[0]) && IsUpperAscii(s[1])) ==> Kebab(s) == [LowerChar(s[0])] + Kebab(s[1..])
  {
    if IsLowerAscii(s[0]) && IsUpperAscii(s[1]) {
      LowerAppend([s[0], '-', s[1]], InsertDashes(s[2..]));
    } else {
      LowerAppend([s[0]], InsertDashes(s[1..]));
    }
  }

  /** Dropping a leading character that is not a capital keeps a name camelCase. */
  lemma CamelCaseTail(s: string, n: nat)
    requires IsCamelCase(s) && 1 <= n <= |s|
    requires n < |s| ==> !IsUpperAscii(s[n])
    ensures IsCamelCase(s[n..])
  {
    var rest := s[n..];
    forall i | 0 <= i < |rest| && IsUpperAscii(rest[i])
      ensures i > 0 && IsLowerAscii(rest[i - 1])
    {
      assert s[i + n] == rest[i];
    }
  }

  lemma CapitalRoundTrip(c: char)
    requires IsUpperAscii(c)
    ensures IsLowerAscii(LowerChar(c)) && UpperChar(LowerChar(c)) == c
  {
  }

  lemma CamelizeKeeps(c: char, t: string)
    requires c != '-'
    ensures Camelize([c] + t) == [c] + Camelize(t)
  {
    if |t| > 0 {
      assert ([c] + t)[1..] == t;
    }
  }

  lemma CamelizeDash(c: char, t: string)
    requires IsLowerAscii(c)
    ensures Camelize(['-', c] + t) == [UpperChar(c)] + Camelize(t)
  {
    assert (['-', c] + t)[2..] == t;
  }

  /** The round trip over a leading lowercase-then-capital pair. */
  lemma RoundTripPairStep(s: string)
    requires |s| >= 2 && IsLowerAscii(s[0]) && IsUpperAscii(s[1])
    requires Camelize(Kebab(s[2..])) == s[2..]
    ensures Camelize(Kebab(s)) == s
  {
    var rest := s[2..];
    var k := Kebab(rest);
    var c := LowerChar(s[1]);
    KebabUnfold(s);
    CapitalRoundTrip(s[1]);
    CamelizeDash(c, k);
    CamelizeKeeps(s[0], ['-', c] + k);
    assert [s[0], '-', c] + k == [s[0]] + (['-', c] + k);
    assert s == [s[0]] + ([s[1]] + rest);
  }

  /** The round trip over a leading character that starts no pair and is no capital. */
  lemma RoundTripSingleStep(s: string)
    requires |s| >= 2 && !(IsLowerAscii(s[0]) && IsUpperAscii(s[1]))
    requires s[0] != '-' && !IsUpperAscii(s[0])
    requires Camelize(Kebab(s[1..])) == s[1..]
    ensures Camelize(Kebab(s)) == s
  {
    KebabUnfold(s);
    CamelizeKeeps(s[0], Kebab(s[1..]));
    assert s == [s[0]] + s[1..];
  }

  /** Kebab-casing a camelCase name loses nothing: camelizing gives the name back. */
  lemma {:induction false} KebabRoundTrip(s: string)
    requires IsCamelCase(s)
    ensures Camelize(Kebab(s)) == s
    decreases |s|
  {
    if |s| < 2 {
      if |s| == 1 {
        assert !IsUpperAscii(s[0]);
        assert Kebab(s) == [LowerChar(s[0])];
      }
    } else if IsLowerAscii(s[0]) && IsUpperAscii(s[1]) {
      CamelCaseTail(s, 2);
      KebabRoundTrip(s[2..]);
      RoundTripPairStep(s);
    } else {
      assert s[0] != '-' && !IsUpperAscii(s[0]);
      CamelCaseTail(s, 1);
      KebabRoundTrip(s[1..]);
      RoundTripSingleStep(s);
    }
  }

  /** A style or dataset key never holds an ASCII capital, and has a dash exactly
      where a lowercase letter meets a capital. */
  lemma KebabHasNoCapitals(s: string)
    ensures forall i :: 0 <= i < |Kebab(s)| ==> !IsUpperAscii(Kebab(s)[i])
    ensures |s| >= 2 && IsLowerAscii(s[0]) && IsUpperAscii(s[1]) ==> Kebab(s)[..3] == [s[0], '-', LowerChar(s[1])]
  {
  }

  /** The `data-` attribute for `dataset.name`. */
  function DatasetKey(name: string): (r: string)
    ensures StartsWith(r, "data-")
    ensures r[5..] == Kebab(name)
  {
    "data-" + Kebab(name)
  }

  /** `literal.value.toString()`; `null` has no toString and throws. */
  function LiteralText(v: LiteralValue): (r: Option<string>)
    ensures r.None? <==> v.NullLit?
    ensures v.StringLit? ==> r == Some(v.s)
    ensures v.BoolLit? ==> r == Some(if v.b then "true" else "false")
    ensures v.NumLit? ==> r.Some? && IsIntText(r.value) && ParseInt(r.value) == v.n
  {
    match v
    case StringLit(s) => Some(s)
    case BoolLit(b) => Some(if b then "true" else "false")
    case NumLit(n) => IntToStringRoundTrip(n); Some(IntToString(n))
    case NullLit => None
  }

  /** Every listed attribute property is already lowercase, so its key is its name. */
  lemma AttributeKeysAreNames()
    ensures forall n :: n in AttributeProperties + BooleanProperties ==> Lower(n) == n
  {
    forall n | n in AttributeProperties + BooleanProperties
      ensures Lower(n) == n
    {
      assert forall i :: 0 <= i < |n| ==> !IsUpperAscii(n[i]);
    }
  }

  /** `array.indexOf(x)` on fragments (by identity). */
  function IndexOf(s: seq<DomFragment>, x: DomFragment): (r: int)
    ensures -1 <= r < |s|
    ensures r == -1 <==> x !in s
    ensures r >= 0 ==> s[r] == x && x !in s[..r]
    decreases |s|
  {
    if |s| == 0 then -1
    else if s[0] == x then 0
    else
      var k := IndexOf(s[1..], x);
      assert s[1..][..(if k >= 0 then k else 0)] == s[1..(if k >= 0 then k + 1 else 1)];
      if k == -1 then -1 else k + 1
  }

  // ---------------------------------------------------------------------------
  // Handlers

  /** propertyAssignment: `frag.<property> = value`. */
  method PropertyAssignment(property: Node, value: Node, frag: DomFragment) returns (handled: bool)
    modifies frag
    ensures handled <==> IsIdentifierIn(property, AssignableProperties)
    ensures
      if IsIdentifierIn(property, {"className"}) then
        && frag.classList == old(frag.classList) + [value]
        && frag.textContent == old(frag.textContent) && frag.attributes == old(frag.attributes)
      else if IsIdentifierIn(property, TextProperties) then
        && frag.textContent == Some(value)
        && frag.classList == old(frag.classList) && frag.attributes == old(frag.attributes)
      else if IsIdentifierIn(property, AttributeProperties) then
        && frag.attributes == old(frag.attributes) + [Attribute(Lower(property.kind.name), NodeValue(value))]
        && frag.classList == old(frag.classList) && frag.textContent == old(frag.textContent)
      else if IsIdentifierIn(property, BooleanProperties) then
        && frag.attributes == old(frag.attributes)
             + [Attribute("?" + Lower(property.kind.name), if IsLiteral(value, BoolLit(true)) then TemplateTrue else NodeValue(value))]
        && frag.classList == old(frag.classList) && frag.textContent == old(frag.textContent)
      else
        frag.classList == old(frag.classList) && frag.textContent == old(frag.textContent)
        && frag.attributes == old(frag.attributes)
    ensures frag.style == old(frag.style) && frag.children == old(frag.children) && frag.parent == old(frag.parent)
    ensures frag.references == old(frag.references) && frag.childCalls == old(frag.childCalls)
  {
    if IsIdentifierIn(property, {"className"}) {
      frag.classList := frag.classList + [value];
      return true;
    }
    if IsIdentifierIn(property, TextProperties) {
      frag.textContent := Some(value);
      return true;
    }
    if IsIdentifierIn(property, AttributeProperties) {
      frag.attributes := frag.attributes + [Attribute(Lower(property.kind.name), NodeValue(value))];
      return true;
    }
    if IsIdentifierIn(property, BooleanProperties) {
      var v := if IsLiteral(value, BoolLit(true)) then TemplateTrue else NodeValue(value);
      frag.attributes := frag.attributes + [Attribute("?" + Lower(property.kind.name), v)];
      return true;
    }
    return false;
  }

  /** propertyMethodCall: only `frag.classList.add(arg)`. */
  method PropertyMethodCall(property: Node, methodName: Node, firstArg: Node, frag: DomFragment) returns (handled: bool)
    modifies frag
    ensures handled <==> IsIdentifierIn(property, {"classList"}) && IsIdentifierIn(methodName, {"add"})
    ensures handled ==> frag.classList == old(frag.classList) + [firstArg]
    ensures !handled ==> frag.classList == old(frag.classList)
    ensures frag.textContent == old(frag.textContent) && frag.attributes == old(frag.attributes)
    ensures frag.style == old(frag.style) && frag.children == old(frag.children) && frag.parent == old(frag.parent)
    ensures frag.references == old(frag.references) && frag.childCalls == old(frag.childCalls)
  {
    if IsIdentifierIn(property, {"classList"}) && IsIdentifierIn(methodName, {"add"}) {
      frag.classList := frag.classList + [firstArg];
      return true;
    }
    return false;
  }

  /** subpropertyAssignment: `frag.style.name = value` and `frag.dataset.name = value`;
      a spread value is not handled. */
  method SubpropertyAssignment(property: Node, subproperty: Node, value: Node, frag: DomFragment) returns (handled: bool)
    modifies frag
    ensures handled <==>
      (IsIdentifierIn(property, {"style", "dataset"}) && subproperty.kind.Identifier? && !value.kind.SpreadElement?)
    ensures handled && IsIdentifierIn(property, {"style"}) ==>
      frag.style == old(frag.style) + [Attribute(Kebab(subproperty.kind.name), NodeValue(value))]
      && frag.attributes == old(frag.attributes)
    ensures handled && IsIdentifierIn(property, {"dataset"}) ==>
      frag.attributes == old(frag.attributes) + [Attribute(DatasetKey(subproperty.kind.name), NodeValue(value))]
      && frag.style == old(frag.style)
    ensures !handled ==> frag.style == old(frag.style) && frag.attributes == old(frag.attributes)
    ensures frag.classList == old(frag.classList) && frag.textContent == old(frag.textContent)
    ensures frag.children == old(frag.children) && frag.parent == old(frag.parent)
    ensures frag.references == old(frag.references) && frag.childCalls == old(frag.childCalls)
  {
    if IsIdentifierIn(property, {"style"}) && subproperty.kind.Identifier? {
      var key := Kebab(subproperty.kind.name);
      if !value.kind.SpreadElement? {
        frag.style := frag.style + [Attribute(key, NodeValue(value))];
        return true;
      }
    }
    if IsIdentifierIn(property, {"dataset"}) && subproperty.kind.Identifier? {
      var key := "data-" + Kebab(subproperty.kind.name);
      if !value.kind.SpreadElement? {
        frag.attributes := frag.attributes + [Attribute(key, NodeValue(value))];
        return true;
      }
    }
    return false;
  }

  /** `frag.append(...args)`: one appendChild per argument, in order. */
  method AppendAll(args: seq<Node>, frag: DomFragment)
    modifies frag
    ensures frag.childCalls == old(frag.childCalls) + seq(|args|, i requires 0 <= i < |args| => AppendChild(args[i]))
    ensures frag.classList == old(frag.classList) && frag.textContent == old(frag.textContent)
    ensures frag.attributes == old(frag.attributes) && frag.style == old(frag.style)
    ensures frag.children == old(frag.children) && frag.parent == old(frag.parent)
    ensures frag.references == old(frag.references)
  {
    for k := 0 to |args|
      invariant frag.childCalls == old(frag.childCalls) + seq(k, i requires 0 <= i < k => AppendChild(args[i]))
      invariant frag.classList == old(frag.classList) && frag.textContent == old(frag.textContent)
      invariant frag.attributes == old(frag.attributes) && frag.style == old(frag.style)
      invariant frag.children == old(frag.children) && frag.parent == old(frag.parent)
      invariant frag.references == old(frag.references)
    {
      frag.childCalls := frag.childCalls + [AppendChild(args[k])];
    }
  }

  /** `frag.prepend(...args)`: one insertChildAt(child, 0) per argument, in order. */
  method PrependAll(args: seq<Node>, frag: DomFragment)
    modifies frag
    ensures frag.childCalls == old(frag.childCalls) + seq(|args|, i requires 0 <= i < |args| => InsertChildAt(args[i], 0))
    ensures frag.classList == old(frag.classList) && frag.textContent == old(frag.textContent)
    ensures frag.attributes == old(frag.attributes) && frag.style == old(frag.style)
    ensures frag.children == old(frag.children) && frag.parent == old(frag.parent)
    ensures frag.references == old(frag.references)
  {
    for k := 0 to |args|
      invariant frag.childCalls == old(frag.childCalls) + seq(k, i requires 0 <= i < k => InsertChildAt(args[i], 0))
      invariant frag.classList == old(frag.classList) && frag.textContent == old(frag.textContent)
      invariant frag.attributes == old(frag.attributes) && frag.style == old(frag.style)
      invariant frag.children == old(frag.children) && frag.parent == old(frag.parent)
      invariant frag.references == old(frag.references)
    {
      frag.childCalls := frag.childCalls + [InsertChildAt(args[k], 0)];
    }
  }

  /** Marks as processed every reference to `node` in `refs`. */
  method MarkReferences(refs: seq<Reference>, node: Node)
    modifies set r | r in refs
    ensures forall r :: r in refs ==> r.processed == (old(r.processed) || r.node == node)
  {
    for k := 0 to |refs|
      invariant forall r :: r in refs ==> r.processed == (old(r.processed) || (r.node == node && r in refs[..k]))
    {
      if refs[k].node == node {
        refs[k].processed := true;
      }
    }
  }

  /** The references of all of a fragment's children: what insertBefore may mark. */
  function ChildReferences(frag: DomFragment): set<Reference>
    reads frag, frag.children
  {
    set c, r | c in frag.children && r in c.references :: r
  }

  /** methodCall: `frag.<property>(firstArg, secondArg, ...)` with all its arguments
      in `args`; `secondFragment` is the fragment `DomFragment.getOrCreate` gives for
      `secondArg`. */
  method MethodCall(property: Node, firstArg: Node, secondArg: Node, args: seq<Node>,
                    secondFragment: DomFragment, frag: DomFragment) returns (outcome: CallOutcome)
    modifies frag, frag.parent, ChildReferences(frag)
    ensures outcome == Threw <==>
      IsIdentifierIn(property, {"setAttribute"}) && firstArg.kind == Literal(NullLit) && !secondArg.kind.SpreadElement?
    ensures IsIdentifierIn(property, {"setAttribute"}) ==>
      if firstArg.kind.Literal? && !secondArg.kind.SpreadElement? && !firstArg.kind.value.NullLit? then
        outcome == Handled
        && frag.attributes == old(frag.attributes) + [Attribute(LiteralText(firstArg.kind.value).value, NodeValue(secondArg))]
      else outcome != Handled && frag.attributes == old(frag.attributes)
    ensures IsIdentifierIn(property, {"appendChild"}) ==>
      outcome == Handled && frag.childCalls == old(frag.childCalls) + [AppendChild(firstArg)]
    ensures IsIdentifierIn(property, {"append"}) ==>
      outcome == Handled
      && frag.childCalls == old(frag.childCalls) + seq(|args|, i requires 0 <= i < |args| => AppendChild(args[i]))
    ensures IsIdentifierIn(property, {"prepend"}) ==>
      outcome == Handled
      && frag.childCalls == old(frag.childCalls) + seq(|args|, i requires 0 <= i < |args| => InsertChildAt(args[i], 0))
    ensures IsIdentifierIn(property, {"insertBefore"}) ==>
      var index := IndexOf(old(frag.children), secondFragment);
      && (outcome == Handled <==> index != -1)
      && (index != -1 ==>
            && frag.childCalls == old(frag.childCalls) + [InsertChildAt(firstArg, index)]
            && forall r :: r in old(frag.children[index].references) ==>
                 r.processed == (old(r.processed) || r.node == secondArg))
      && (index == -1 ==> frag.childCalls == old(frag.childCalls))
    ensures IsIdentifierIn(property, {"insertAdjacentElement"}) ==>
      && (outcome == Handled <==>
            old(frag.parent) != null && (IsLiteral(firstArg, StringLit("afterend")) || IsLiteral(firstArg, StringLit("beforebegin"))))
      && (outcome == Handled ==>
            var index := IndexOf(old(frag.parent.children), frag);
            old(frag.parent).childCalls == old(frag.parent.childCalls)
              + [InsertChildAt(secondArg, if IsLiteral(firstArg, StringLit("afterend")) then index + 1 else index)])
    ensures !IsIdentifierIn(property, {"setAttribute", "appendChild", "append", "prepend", "insertBefore", "insertAdjacentElement"}) ==>
      outcome == NotHandled
    ensures outcome == NotHandled || outcome == Threw ==>
      frag.childCalls == old(frag.childCalls) && frag.attributes == old(frag.attributes)
    ensures frag.classList == old(frag.classList) && frag.textContent == old(frag.textContent)
    ensures frag.style == old(frag.style) && frag.children == old(frag.children) && frag.parent == old(frag.parent)
    ensures frag.references == old(frag.references)
    ensures IsIdentifierIn(property, {"insertAdjacentElement"}) && old(frag.parent) != frag ==>
      frag.childCalls == old(frag.childCalls) && frag.attributes == old(frag.attributes)
    ensures old(frag.parent) != null && old(frag.parent) != frag ==>
      var p := old(frag.parent);
      && p.classList == old(p.classList) && p.textContent == old(p.textContent)
      && p.attributes == old(p.attributes) && p.style == old(p.style)
      && p.children == old(p.children) && p.parent == old(p.parent) && p.references == old(p.references)
      && (!(IsIdentifierIn(property, {"insertAdjacentElement"}) && outcome == Handled) ==> p.childCalls == old(p.childCalls))
    ensures !IsIdentifierIn(property, {"insertBefore"}) ==>
      forall r :: r in old(ChildReferences(frag)) ==> r.processed == old(r.processed)
    ensures IsIdentifierIn(property, {"insertBefore"}) ==>
      var index := IndexOf(old(frag.children), secondFragment);
      forall r :: r in old(ChildReferences(frag)) && (index == -1 || r !in old(frag.children[index].references)) ==>
        r.processed == old(r.processed)
  {
    if IsIdentifierIn(property, {"setAttribute"}) {
      if firstArg.kind.Literal? && !secondArg.kind.SpreadElement? {
        var text := LiteralText(firstArg.kind.value);
        if text.None? {
          return Threw;
        }
        frag.attributes := frag.attributes + [Attribute(text.value, NodeValue(secondArg))];
        return Handled;
      }
      return NotHandled;
    }
    if IsIdentifierIn(property, {"appendChild"}) {
      frag.childCalls := frag.childCalls + [AppendChild(firstArg)];
      return Handled;
    }
    if IsIdentifierIn(property, {"append"}) {
      AppendAll(args, frag);
      return Handled;
    }
    if IsIdentifierIn(property, {"prepend"}) {
      PrependAll(args, frag);
      return Handled;
    }
    if IsIdentifierIn(property, {"insertBefore"}) {
      var index := IndexOf(frag.children, secondFragment);
      if index != -1 {
        var child := frag.children[index];
        MarkReferences(child.references, secondArg);
        frag.childCalls := frag.childCalls + [InsertChildAt(firstArg, index)];
        return Handled;
      }
      return NotHandled;
    }
    if IsIdentifierIn(property, {"insertAdjacentElement"}) {
      var p := frag.parent;
      if p != null {
        var index := IndexOf(p.children, frag);
        if IsLiteral(firstArg, StringLit("afterend")) {
          p.childCalls := p.childCalls + [InsertChildAt(secondArg, index + 1)];
          return Handled;
        }
        if IsLiteral(firstArg, StringLit("beforebegin")) {
          p.childCalls := p.childCalls + [InsertChildAt(secondArg, index)];
          return Handled;
        }
      }
      return NotHandled;
    }
    return NotHandled;
  }
}
