/**
 * Editor lexer configuration (trunk/editor/config.h): the lexer abstraction
 * shared by the style model, the common-defaults lexer, and the ordered map
 * from file-name patterns to lexers.
 */
module LexerConfig {
  import opened Common

  /**
   * The values a style property can hold. Fonts and colours are opaque
   * identifiers compared by equality; strings carry markers such as
   * "<Inherit>"; integers appear where the source returns a plain number.
   */
  datatype Variant =
    | Invalid | FontValue(font: nat) | ColorValue(color: nat) | StringValue(s: string) | IntValue(i: int)

  datatype VariantType = InvalidType | FontType | ColorType | StringType | IntType

  function TypeOf(v: Variant): VariantType
  {
    match v
    case Invalid => InvalidType
    case FontValue(_) => FontType
    case ColorValue(_) => ColorType
    case StringValue(_) => StringType
    case IntValue(_) => IntType
  }

  /**
   * A lexer as the style model sees it: the language and lexer names, the
   * style descriptions by style id, the default style, and the font,
   * foreground and background colour of each style (with lexer-wide
   * defaults for styles it does not list).
   */
  datatype Lexer = Lexer(
    language: string, name: string, descriptions: seq<string>, defaultStyle: int,
    defaultFont: nat, defaultColor: nat, defaultPaper: nat,
    fonts: map<int, nat>, colors: map<int, nat>, papers: map<int, nat>)

  /** The description of a style; empty when the style does not exist. */
  function Description(l: Lexer, style: int): string
  {
    if 0 <= style < |l.descriptions| then l.descriptions[style] else ""
  }

  function FontOf(l: Lexer, style: int): Variant
  {
    FontValue(if style in l.fonts then l.fonts[style] else l.defaultFont)
  }

  function ColorOf(l: Lexer, style: int): Variant
  {
    ColorValue(if style in l.colors then l.colors[style] else l.defaultColor)
  }

  function PaperOf(l: Lexer, style: int): Variant
  {
    ColorValue(if style in l.papers then l.papers[style] else l.defaultPaper)
  }

  /** The base lexer's font and colours, which the common lexer keeps. */
  const BaseFont: nat := 0
  const BaseColor: nat := 0
  const BasePaper: nat := 1

  /**
   * The common-defaults lexer: language and lexer name "Common", a single
   * style 0 described as "Default", which is also its default style.
   */
  function CommonLexer(): (l: Lexer)
    ensures l.language == "Common" && l.name == "Common"
    ensures l.defaultStyle == 0
    ensures forall style :: Description(l, style) == if style == 0 then "Default" else ""
  {
    Lexer("Common", "Common", ["Default"], 0, BaseFont, BaseColor, BasePaper, map[], map[], map[])
  }

  /** One registration: a file-name pattern and the lexer assigned to it, if any. */
  datatype Pair = Pair(pattern: string, lexer: Option<Lexer>)

  /**
   * The position of the first pair whose pattern matches `text` exactly, if
   * any. Pattern matching (wildcard, case-sensitive) is the `matches`
   * parameter.
   */
  function FirstMatchIndex(pairs: seq<Pair>, text: string, matches: (string, string) -> bool): (r: Option<nat>)
    ensures r.None? <==> forall i :: 0 <= i < |pairs| ==> !matches(pairs[i].pattern, text)
    ensures r.Some? ==>
      && r.value < |pairs|
      && matches(pairs[r.value].pattern, text)
      && forall j :: 0 <= j < r.value ==> !matches(pairs[j].pattern, text)
    decreases |pairs|
  {
    if pairs == [] then None
    else if matches(pairs[0].pattern, text) then Some(0)
    else
      match FirstMatchIndex(pairs[1..], text, matches)
      case None => None
      case Some(i) => Some(i + 1)
  }

  /** The lexer find() returns: that of the first matching pair, or null. */
  function Lookup(pairs: seq<Pair>, text: string, matches: (string, string) -> bool): (r: Option<Lexer>)
    ensures (forall i :: 0 <= i < |pairs| ==> !matches(pairs[i].pattern, text)) ==> r.None?
    ensures forall i ::
      (&& 0 <= i < |pairs| && matches(pairs[i].pattern, text)
       && (forall j :: 0 <= j < i ==> !matches(pairs[j].pattern, text))) ==> r == pairs[i].lexer
  {
    match FirstMatchIndex(pairs, text, matches)
    case None => None
    case Some(i) => pairs[i].lexer
  }

  /**
   * Earlier registrations win: once some registered pattern matches a text,
   * registering more patterns does not change the lexer found for it.
   */
  lemma EarlierRegistrationWins(pairs: seq<Pair>, more: seq<Pair>, text: string, matches: (string, string) -> bool)
    requires FirstMatchIndex(pairs, text, matches).Some?
    ensures Lookup(pairs + more, text, matches) == Lookup(pairs, text, matches)
  {
    var i := FirstMatchIndex(pairs, text, matches).value;
    var k := FirstMatchIndex(pairs + more, text, matches);
    assert (pairs + more)[i] == pairs[i];
    assert k.Some? && k.value == i;
  }

  /** The map from file-name patterns to lexers, in registration order. */
  class LexerMap {
    var pairs: seq<Pair>

    constructor ()
      ensures pairs == []
    {
      pairs := [];
    }

    /**
     * operator[]: appends a pair for the pattern with no lexer and returns
     * its position, through which the caller assigns the lexer.
     */
    method Append(pattern: string) returns (idx: nat)
      modifies this
      ensures pairs == old(pairs) + [Pair(pattern, None)]
      ensures idx == |pairs| - 1
    {
      pairs := pairs + [Pair(pattern, None)];
      idx := |pairs| - 1;
    }

    /** Pair::operator=: sets the lexer of one pair and of no other. */
    method Assign(idx: nat, lexer: Lexer)
      requires idx < |pairs|
      modifies this
      ensures pairs == old(pairs)[idx := old(pairs)[idx].(lexer := Some(lexer))]
    {
      pairs := pairs[idx := pairs[idx].(lexer := Some(lexer))];
    }

    /** Scans the pairs in registration order for the first exact match. */
    method Find(text: string, matches: (string, string) -> bool) returns (r: Option<Lexer>)
      ensures r == Lookup(pairs, text, matches)
    {
      var i := 0;
      while i < |pairs|
        invariant 0 <= i <= |pairs|
        invariant forall j :: 0 <= j < i ==> !matches(pairs[j].pattern, text)
      {
        if matches(pairs[i].pattern, text) {
          var k := FirstMatchIndex(pairs, text, matches);
          assert k.Some? && k.value == i;
          return pairs[i].lexer;
        }
        i := i + 1;
      }
      r := None;
    }

    method Clear()
      modifies this
      ensures pairs == []
    {
      pairs := [];
    }
  }
}
