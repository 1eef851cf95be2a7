/**
 * The page-context script that replaces `window.FontFace` by a wrapper. Each
 * construction of a font face through the wrapper writes the equivalent
 * `@font-face` rule into a new `<style data-savepage-fontface>` element at the
 * end of `<head>`, so that the saved page keeps fonts the page loaded from
 * script, and then calls the constructor the wrapper replaced.
 */
module FontFace {

  import opened Wrappers
  import opened Seqs

  /** A JavaScript value as this code uses it: its text under `+` concatenation, and whether `if` finds it truthy. */
  datatype JsValue = JsValue(text: string, truthy: bool)

  /** The third constructor argument, as far as its `weight`, `style` and `stretch` properties go. */
  datatype Descriptors = Descriptors(weight: JsValue, style: JsValue, stretch: JsValue)

  /** The third argument: None when it is falsy (absent, `null`, …), else its three properties. */
  type Options = Option<Descriptors>

  // ---------------------------------------------------------------------------
  // The rule text, built as the wrapper builds it with `+=`

  /** The text of one descriptor: `name: value; `. */
  function Declaration(name: string, value: JsValue): string {
    name + ": " + value.text + "; "
  }

  /** One descriptor clause, emitted only for a truthy value. */
  function Clause(name: string, value: JsValue): string {
    if value.truthy then Declaration(name, value) else ""
  }

  /** The fixed opening: the selector, the family and the source. */
  function RuleHead(family: JsValue, src: JsValue): string {
    "@font-face { " + "font-family: " + family.text + "; " + "src: " + src.text + "; "
  }

  /** The descriptor clauses of a truthy third argument: weight, style, stretch. */
  function DescriptorClauses(descriptors: Options): string {
    match descriptors
    case None => ""
    case Some(d) => Clause("font-weight", d.weight) + Clause("font-style", d.style) + Clause("font-stretch", d.stretch)
  }

  /** The `@font-face` rule for `new FontFace(family, src, descriptors)`. */
  function FontFaceRule(family: JsValue, src: JsValue, descriptors: Options): string {
    RuleHead(family, src) + DescriptorClauses(descriptors) + " }"
  }

  // ---------------------------------------------------------------------------
  // A reference description of the rule: a head, a list of descriptors, a tail

  /** A descriptor the third argument may give: its CSS name and its value. */
  datatype Candidate = Candidate(name: string, value: JsValue)

  /** The only descriptors the wrapper knows, in the order it writes them. */
  const DescriptorNames: seq<string> := ["font-weight", "font-style", "font-stretch"]

  /** The three candidate descriptors of the third argument, in the fixed order. */
  function Candidates(d: Descriptors): (cs: seq<Candidate>)
    ensures |cs| == |DescriptorNames| && forall i :: 0 <= i < |cs| ==> cs[i].name == DescriptorNames[i]
  {
    [Candidate(DescriptorNames[0], d.weight), Candidate(DescriptorNames[1], d.style), Candidate(DescriptorNames[2], d.stretch)]
  }

  predicate Given(c: Candidate) {
    c.value.truthy
  }

  /** The descriptors the rule states: the truthy candidates of a truthy third argument. */
  function Emitted(descriptors: Options): seq<Candidate> {
    match descriptors
    case None => []
    case Some(d) => Filter(Candidates(d), Given)
  }

  /** The text of a list of descriptors: `name: value; ` each. */
  function Render(cs: seq<Candidate>): string
    decreases |cs|
  {
    if cs == [] then "" else Render(cs[..|cs| - 1]) + Declaration(cs[|cs| - 1].name, cs[|cs| - 1].value)
  }

  /** The clause text of each candidate, truthy or not, joined. */
  function Clauses(cs: seq<Candidate>): string
    decreases |cs|
  {
    if cs == [] then "" else Clauses(cs[..|cs| - 1]) + Clause(cs[|cs| - 1].name, cs[|cs| - 1].value)
  }

  lemma {:induction false} RenderFiltered(cs: seq<Candidate>)
    ensures Render(Filter(cs, Given)) == Clauses(cs)
    decreases |cs|
  {
    if cs != [] {
      var init := cs[..|cs| - 1];
      var last := cs[|cs| - 1];
      RenderFiltered(init);
      if Given(last) {
        var f := Filter(init, Given) + [last];
        assert Filter(cs, Given) == f;
        assert f[..|f| - 1] == Filter(init, Given);
      }
    }
  }

  /** The rule is the fixed head, then the emitted descriptors, then " }". */
  lemma RuleStructure(family: JsValue, src: JsValue, descriptors: Options)
    ensures FontFaceRule(family, src, descriptors) == RuleHead(family, src) + Render(Emitted(descriptors)) + " }"
  {
    if descriptors.Some? {
      var d := descriptors.value;
      var c := Candidates(d);
      RenderFiltered(c);
      var x0, x1, x2 := Clause("font-weight", d.weight), Clause("font-style", d.style), Clause("font-stretch", d.stretch);
      assert c[..2][..1] == c[..1] && c[..1][..0] == [] && c[..3] == c;
      assert Clauses(c[..1]) == x0;
      assert Clauses(c[..2]) == x0 + x1;
      assert Clauses(c) == x0 + x1 + x2;
    }
  }

  /** The rule begins with the selector, family and source, whatever the descriptors. */
  lemma RuleBegins(family: JsValue, src: JsValue, descriptors: Options)
    ensures RuleHead(family, src) <= FontFaceRule(family, src, descriptors)
  {
  }

  /** Text whose last two characters are the clause separator "; ". */
  predicate EndsWithSeparator(s: string) {
    |s| >= 2 && s[|s| - 2..] == "; "
  }

  /** Whatever comes before it, text that ends with "; " leaves the separator at the end. */
  lemma AppendKeepsSeparator(s: string, t: string)
    requires EndsWithSeparator(t)
    ensures EndsWithSeparator(s + t)
  {
    assert (s + t)[|s + t| - 2..] == t[|t| - 2..];
  }

  /** A declaration ends with "; ". */
  lemma DeclarationEnds(name: string, value: JsValue)
    ensures EndsWithSeparator(Declaration(name, value))
  {
    var c := Declaration(name, value);
    assert c == (name + ": " + value.text) + "; ";
  }

  /** Text that is empty or ends with "; ". */
  predicate EmptyOrSeparated(s: string) {
    s == "" || EndsWithSeparator(s)
  }

  lemma JoinSeparated(s: string, t: string)
    requires EmptyOrSeparated(s) && EmptyOrSeparated(t)
    ensures EmptyOrSeparated(s + t)
  {
    if t == "" {
      assert s + t == s;
    } else {
      AppendKeepsSeparator(s, t);
    }
  }

  lemma ClauseSeparated(name: string, value: JsValue)
    ensures EmptyOrSeparated(Clause(name, value))
  {
    if value.truthy {
      DeclarationEnds(name, value);
    }
  }

  lemma HeadEnds(family: JsValue, src: JsValue)
    ensures EndsWithSeparator(RuleHead(family, src))
  {
    var head := RuleHead(family, src);
    assert head == ("@font-face { " + "font-family: " + family.text + "; " + "src: " + src.text) + "; ";
  }

  lemma DescriptorClausesSeparated(descriptors: Options)
    ensures EmptyOrSeparated(DescriptorClauses(descriptors))
  {
    if descriptors.Some? {
      var d := descriptors.value;
      var c0, c1, c2 := Clause("font-weight", d.weight), Clause("font-style", d.style), Clause("font-stretch", d.stretch);
      ClauseSeparated("font-weight", d.weight);
      ClauseSeparated("font-style", d.style);
      ClauseSeparated("font-stretch", d.stretch);
      JoinSeparated(c0, c1);
      JoinSeparated(c0 + c1, c2);
    }
  }

  lemma CloseKeepsSeparator(body: string)
    requires EndsWithSeparator(body)
    ensures var r := body + " }"; |r| >= 4 && r[|r| - 4..] == ";  }"
  {
    var r := body + " }";
    assert r[|r| - 4..] == body[|body| - 2..] + " }";
  }

  /** The rule always ends with the last clause's "; " followed by " }". */
  lemma RuleEnds(family: JsValue, src: JsValue, descriptors: Options)
    ensures var r := FontFaceRule(family, src, descriptors); |r| >= 4 && r[|r| - 4..] == ";  }"
  {
    HeadEnds(family, src);
    DescriptorClausesSeparated(descriptors);
    JoinSeparated(RuleHead(family, src), DescriptorClauses(descriptors));
    CloseKeepsSeparator(RuleHead(family, src) + DescriptorClauses(descriptors));
  }

  /** Without a truthy third argument the rule has no descriptor. */
  lemma NoDescriptorsWithoutOptions(family: JsValue, src: JsValue)
    ensures FontFaceRule(family, src, None) == RuleHead(family, src) + " }"
  {
  }

  /**
   * The rule states exactly the truthy ones among weight, style and stretch
   * of a truthy third argument, each with its value, in that order, and
   * nothing else.
   */
  lemma EmittedDescriptors(descriptors: Options) returns (pos: seq<nat>)
    ensures |pos| == |Emitted(descriptors)|
    ensures forall j, k :: 0 <= j < k < |pos| ==> pos[j] < pos[k]
    ensures forall j :: 0 <= j < |pos| ==> pos[j] < |DescriptorNames| && Emitted(descriptors)[j].name == DescriptorNames[pos[j]]
    ensures descriptors.Some? ==> forall j :: 0 <= j < |pos| ==> Emitted(descriptors)[j].value == Candidates(descriptors.value)[pos[j]].value
    ensures forall i :: 0 <= i < |DescriptorNames| ==>
      (i in pos <==> descriptors.Some? && Candidates(descriptors.value)[i].value.truthy)
  {
    if descriptors.None? {
      pos := [];
    } else {
      var c := Candidates(descriptors.value);
      pos := FilterPositions(c, Given);
      forall i | 0 <= i < |DescriptorNames| && i in pos
        ensures c[i].value.truthy
      {
        var j :| 0 <= j < |pos| && pos[j] == i;
        assert Filter(c, Given)[j] in Filter(c, Given);
      }
    }
  }

  // ---------------------------------------------------------------------------
  // The page: `window.FontFace` and the children of `<head>`

  /** A child of `<head>`: a style element the wrapper added, holding a rule, or anything else. */
  datatype HeadChild = FontFaceStyle(rule: string) | OtherChild

  /** `n` new `<style data-savepage-fontface>` elements holding the same rule. */
  function FontFaceStyles(rule: string, n: nat): (r: seq<HeadChild>)
    ensures |r| == n && forall i :: 0 <= i < n ==> r[i] == FontFaceStyle(rule)
  {
    seq(n, _ => FontFaceStyle(rule))
  }

  class PageWindow {
    /** Whether the page's window has a `FontFace` constructor. */
    const fontFaceAvailable: bool
    /** How many wrappers the current `window.FontFace` consists of (the script may run more than once). */
    var wrappers: nat
    /** Whether `document.head` exists. */
    const hasHead: bool
    var head: seq<HeadChild>

    constructor(fontFaceAvailable: bool, hasHead: bool, head: seq<HeadChild>)
      ensures this.fontFaceAvailable == fontFaceAvailable && this.hasHead == hasHead
      ensures this.head == head && wrappers == 0
    {
      this.fontFaceAvailable := fontFaceAvailable;
      this.hasHead := hasHead;
      this.head := head;
      wrappers := 0;
    }

    /** `interceptFontFace`: only a window that has `FontFace` gets the wrapper. */
    method InterceptFontFace()
      modifies this`wrappers
      ensures wrappers == old(wrappers) + (if fontFaceAvailable then 1 else 0)
    {
      if fontFaceAvailable {
        wrappers := wrappers + 1;
      }
    }

    /**
     * `new FontFace(family, src, descriptors)` made by the page: each wrapper
     * appends one style holding the rule and calls the constructor it
     * replaced. Without `<head>` the outermost wrapper throws before
     * appending anything; `constructed` says whether the browser's own
     * constructor is reached.
     */
    method ConstructFontFace(family: JsValue, src: JsValue, descriptors: Options) returns (constructed: bool)
      modifies this`head
      ensures constructed == (wrappers == 0 || hasHead)
      ensures head == old(head) + (if hasHead then FontFaceStyles(FontFaceRule(family, src, descriptors), wrappers) else [])
    {
      constructed := CallWrapper(wrappers, family, src, descriptors);
    }

    /** The wrapper `depth` levels above the browser's constructor. */
    method CallWrapper(depth: nat, family: JsValue, src: JsValue, descriptors: Options) returns (constructed: bool)
      modifies this`head
      ensures constructed == (depth == 0 || hasHead)
      ensures head == old(head) + (if hasHead then FontFaceStyles(FontFaceRule(family, src, descriptors), depth) else [])
      decreases depth
    {
      if depth == 0 {
        return true;
      }
      var rule := FontFaceRule(family, src, descriptors);
      if !hasHead {
        return false;
      }
      head := head + [FontFaceStyle(rule)];
      constructed := CallWrapper(depth - 1, family, src, descriptors);
      assert [FontFaceStyle(rule)] + FontFaceStyles(rule, depth - 1) == FontFaceStyles(rule, depth);
    }
  }
}
