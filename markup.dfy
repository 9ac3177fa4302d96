/**
 * The SAPI5 XML markup that `SynthDriver.speak` builds, as a list of
 * tokens. Each token is one piece of the driver's `textList`, with the
 * fragments `<name`, ` attr="value"` ... and `>` of one opening tag grouped
 * into one `Open` token; `RenderAll` gives the string the driver joins.
 */
module Markup {
  import opened Wrappers
  import opened OrderedDict

  /** The attributes of one tag, in the order the driver writes them. */
  type Attrs = Dict<int>

  datatype Token =
    | Open(name: string, attrs: Attrs)   // <name attr="value" ...>
    | Close(name: string)                // </name>
    | Chars(text: string)                // literal characters
    | Bookmark(mark: int)                // <Bookmark Mark="n" />
    | Silence(msec: int)                 // <silence msec="n" />
    | Pron(sym: string, text: string)    // <pron sym="...">text</pron>

  /** `s.replace("<", "&lt;")`. */
  function Escape(s: string): (r: string)
    ensures '<' !in r
    ensures '<' !in s ==> r == s
    ensures s == "<" ==> r == "&lt;"
  {
    if s == [] then []
    else (if s[0] == '<' then "&lt;" else [s[0]]) + Escape(s[1..])
  }

  /** Escaping works character by character: it distributes over concatenation. */
  lemma {:induction false} EscapeDistributes(a: string, b: string)
    ensures Escape(a + b) == Escape(a) + Escape(b)
  {
    if a == [] {
      assert a + b == b;
    } else {
      assert (a + b)[1..] == a[1..] + b;
      EscapeDistributes(a[1..], b);
    }
  }

  /** Every `<` grows by the three characters of `&lt;`, nothing else changes length. */
  lemma {:induction false} EscapeLength(s: string)
    ensures |Escape(s)| == |s| + 3 * multiset(s)['<']
  {
    if s != [] {
      assert s == [s[0]] + s[1..];
      assert multiset(s) == multiset{s[0]} + multiset(s[1..]);
      EscapeLength(s[1..]);
    }
  }

  /** The number a string of decimal digits spells, most significant first. */
  function DigitsValue(s: string): nat
    requires forall i :: 0 <= i < |s| ==> '0' <= s[i] <= '9'
  {
    if s == [] then 0 else 10 * DigitsValue(s[..|s| - 1]) + (s[|s| - 1] as int - '0' as int)
  }

  /** Python's `"%d" % n`: a minus sign exactly for negative numbers, then
      the digits of the magnitude, without leading zeros. */
  function Decimal(n: int): (r: string)
    ensures r != []
    ensures n < 0 <==> r[0] == '-'
    ensures var digits := if n < 0 then r[1..] else r;
      && (forall i :: 0 <= i < |digits| ==> '0' <= digits[i] <= '9')
      && DigitsValue(digits) == (if n < 0 then -n else n)
      && (|digits| == 1 || digits[0] != '0')
  {
    if n < 0 then
      var digits := Digits(-n);
      assert ("-" + digits)[1..] == digits;
      "-" + digits
    else Digits(n)
  }

  /** The decimal digits of `n`: they spell `n`, with no leading zero. */
  function Digits(n: nat): (r: string)
    ensures r != []
    ensures forall i :: 0 <= i < |r| ==> '0' <= r[i] <= '9'
    ensures DigitsValue(r) == n
    ensures |r| == 1 || r[0] != '0'
  {
    var last := ['0' + (n % 10) as char];
    assert last[0] as int - '0' as int == n % 10;
    if n < 10 then last
    else
      var front := Digits(n / 10);
      assert (front + last)[..|front|] == front;
      assert |front| == 1 ==> front[0] != '0' by {
        if |front| == 1 {
          assert front[..0] == [];
        }
      }
      front + last
  }

  /** ` attr="value"` for every attribute, in order. */
  function RenderAttrs(attrs: Attrs): string
  {
    if attrs == [] then ""
    else " " + attrs[0].0 + "=\"" + Decimal(attrs[0].1) + "\"" + RenderAttrs(attrs[1..])
  }

  function Render(t: Token): string
  {
    match t
    case Open(name, attrs) => "<" + name + RenderAttrs(attrs) + ">"
    case Close(name) => "</" + name + ">"
    case Chars(text) => text
    case Bookmark(mark) => "<Bookmark Mark=\"" + Decimal(mark) + "\" />"
    case Silence(msec) => "<silence msec=\"" + Decimal(msec) + "\" />"
    case Pron(sym, text) => "<pron sym=\"" + sym + "\">" + text + "</pron>"
  }

  /** `"".join(textList)`. */
  function RenderAll(ts: seq<Token>): string
  {
    if ts == [] then "" else Render(ts[0]) + RenderAll(ts[1..])
  }

  /** Joining is piecewise: the string of two token lists is the two strings. */
  lemma {:induction false} RenderAllAppend(a: seq<Token>, b: seq<Token>)
    ensures RenderAll(a + b) == RenderAll(a) + RenderAll(b)
    decreases |a|
  {
    if a == [] {
      assert a + b == b;
    } else {
      assert (a + b)[0] == a[0];
      assert (a + b)[1..] == a[1..] + b;
      RenderAllAppend(a[1..], b);
    }
  }

  /**
   * Reads the tokens with a stack of open tag names: an `Open` pushes, a
   * `Close` must name the innermost open tag and pops it. The result is the
   * stack at the end, or None if some `Close` does not match. `Pron` is a
   * complete element on its own and the other tokens carry no tags.
   */
  function Unwind(stack: seq<string>, ts: seq<Token>): Option<seq<string>>
    decreases |ts|
  {
    if ts == [] then Some(stack)
    else match ts[0]
      case Open(name, _) => Unwind(stack + [name], ts[1..])
      case Close(name) =>
        if stack != [] && stack[|stack| - 1] == name then Unwind(stack[..|stack| - 1], ts[1..])
        else None
      case _ => Unwind(stack, ts[1..])
  }

  /** Every opened tag is closed, innermost first, and nothing else is closed. */
  predicate Balanced(ts: seq<Token>)
  {
    Unwind([], ts) == Some([])
  }

  predicate IsTag(t: Token)
  {
    t.Open? || t.Close?
  }

  /** Reading two token lists one after the other is reading their concatenation. */
  lemma {:induction false} UnwindAppend(stack: seq<string>, a: seq<Token>, b: seq<Token>)
    ensures Unwind(stack, a + b) == match Unwind(stack, a)
      case None => None
      case Some(s) => Unwind(s, b)
    decreases |a|
  {
    if a == [] {
      assert a + b == b;
    } else {
      assert (a + b)[0] == a[0];
      assert (a + b)[1..] == a[1..] + b;
      match a[0]
      case Open(name, _) => UnwindAppend(stack + [name], a[1..], b);
      case Close(name) =>
        if stack != [] && stack[|stack| - 1] == name {
          UnwindAppend(stack[..|stack| - 1], a[1..], b);
        }
      case _ => UnwindAppend(stack, a[1..], b);
    }
  }

  /** Tokens that are not tags leave the stack as it is. */
  lemma {:induction false} UnwindNoTags(stack: seq<string>, ts: seq<Token>)
    requires forall i :: 0 <= i < |ts| ==> !IsTag(ts[i])
    ensures Unwind(stack, ts) == Some(stack)
    decreases |ts|
  {
    if ts != [] {
      UnwindNoTags(stack, ts[1..]);
    }
  }

  /** The closing tags of the open tags `openTags`, innermost (last) first:
      `for tag in reversed(openedTags)`. */
  function CloseTokens(openTags: seq<string>): (ts: seq<Token>)
    ensures |ts| == |openTags|
    ensures forall i :: 0 <= i < |ts| ==> ts[i] == Close(openTags[|openTags| - 1 - i])
  {
    if openTags == [] then [] else CloseTokens(openTags[1..]) + [Close(openTags[0])]
  }

  /** The opening tags of every entry of `tags`, in order: `for tag, attrs in tags.items()`. */
  function OpenTokens(tags: Dict<Attrs>): (ts: seq<Token>)
    ensures |ts| == |tags|
    ensures forall i :: 0 <= i < |ts| ==> ts[i] == Open(tags[i].0, tags[i].1)
  {
    if tags == [] then [] else [Open(tags[0].0, tags[0].1)] + OpenTokens(tags[1..])
  }

  /** Closing the open tags in reverse order unwinds exactly them. */
  lemma {:induction false} UnwindCloses(outer: seq<string>, openTags: seq<string>)
    ensures Unwind(outer + openTags, CloseTokens(openTags)) == Some(outer)
    decreases |openTags|
  {
    if openTags == [] {
      assert outer + openTags == outer;
    } else {
      var rest := openTags[1..];
      assert outer + openTags == (outer + [openTags[0]]) + rest;
      UnwindCloses(outer + [openTags[0]], rest);
      UnwindAppend(outer + openTags, CloseTokens(rest), [Close(openTags[0])]);
      assert (outer + [openTags[0]])[..|outer|] == outer;
    }
  }

  /** Opening every entry of a dict pushes its keys in order. */
  lemma {:induction false} UnwindOpens(stack: seq<string>, tags: Dict<Attrs>)
    ensures Unwind(stack, OpenTokens(tags)) == Some(stack + Keys(tags))
    decreases |tags|
  {
    if tags == [] {
      assert stack + Keys(tags) == stack;
    } else {
      UnwindFirstOpen(stack, tags);
      UnwindOpens(stack + [tags[0].0], tags[1..]);
      KeysFirst(stack, tags);
    }
  }

  lemma UnwindFirstOpen(stack: seq<string>, tags: Dict<Attrs>)
    requires tags != []
    ensures Unwind(stack, OpenTokens(tags)) == Unwind(stack + [tags[0].0], OpenTokens(tags[1..]))
  {
    assert OpenTokens(tags) == [Open(tags[0].0, tags[0].1)] + OpenTokens(tags[1..]);
  }

  lemma KeysFirst(stack: seq<string>, tags: Dict<Attrs>)
    requires tags != []
    ensures stack + Keys(tags) == (stack + [tags[0].0]) + Keys(tags[1..])
  {
    assert Keys(tags) == [tags[0].0] + Keys(tags[1..]);
  }

  /** The default pitch tag, `<pitch absmiddle="0">`. */
  lemma RenderDefaultPitchTag()
    ensures Render(Open("pitch", [("absmiddle", 0)])) == "<pitch absmiddle=\"0\">"
  {
    var attrs := " absmiddle=\"0\"";
    assert RenderAttrs([("absmiddle", 0)]) == attrs by {
      DecimalZero();
      assert [("absmiddle", 0)][1..] == [];
      assert " " + "absmiddle" + "=\"" + "0" + "\"" + "" == attrs;
    }
    assert "<" + "pitch" + attrs + ">" == "<pitch absmiddle=\"0\">";
  }

  lemma DecimalZero()
    ensures Decimal(0) == "0"
  {
    assert Digits(0) == "0";
  }

  lemma RenderThree(a: Token, b: Token, c: Token)
    ensures RenderAll([a, b, c]) == Render(a) + Render(b) + Render(c)
  {
    assert [a, b, c][1..] == [b, c];
    assert [b, c][1..] == [c];
    assert [c][1..] == [];
    assert RenderAll([c]) == Render(c) by {
      assert Render(c) + "" == Render(c);
    }
    assert RenderAll([b, c]) == Render(b) + Render(c);
    assert Render(a) + (Render(b) + Render(c)) == Render(a) + Render(b) + Render(c);
  }

  /** The markup of one escaped text inside the default pitch tag. */
  lemma RenderPitchExample()
    ensures RenderAll([Open("pitch", [("absmiddle", 0)]), Chars("a&lt;b"), Close("pitch")])
         == "<pitch absmiddle=\"0\">a&lt;b</pitch>"
  {
    RenderThree(Open("pitch", [("absmiddle", 0)]), Chars("a&lt;b"), Close("pitch"));
    RenderDefaultPitchTag();
    RenderClosePitch();
    PitchExampleString();
  }

  lemma RenderClosePitch()
    ensures Render(Close("pitch")) == "</pitch>"
  {
  }

  lemma PitchExampleString()
    ensures "<pitch absmiddle=\"0\">" + "a&lt;b" + "</pitch>" == "<pitch absmiddle=\"0\">a&lt;b</pitch>"
  {
  }
}
