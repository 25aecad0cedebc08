/**
 * The shared button: a size (medium unless given) and a colour (blue unless given).
 * The three named colours are drawn with a class; any other colour is set inline.
 * The text is white on a dark background and black on a light one.
 */
module Button {
  import opened Wrappers

  datatype Size = Small | Medium | Large

  const NamedColors: seq<string> := ["blue", "green", "red"]

  /** The size and colour in effect: the defaults replace only what is not given. */
  function SizeOf(size: Option<Size>): (s: Size)
    ensures size.Some? ==> s == size.value
    ensures size.None? ==> s == Medium
  {
    if size.Some? then size.value else Medium
  }

  function ColorOf(color: Option<string>): (c: string)
    ensures color.Some? ==> c == color.value
    ensures color.None? ==> c == "blue"
  {
    if color.Some? then color.value else "blue"
  }

  predicate IsNamedColor(color: string) {
    color in NamedColors
  }

  /** The classes every button has: its shape and font, then its hover and focus effects. */
  const BaseClasses: string := "rounded-md font-medium " + "filter brightness-100 hover:brightness-110 focus:outline-none transition duration-100 transform focus:translate-x-0.5 focus:translate-y-0.5"

  function SizeClass(size: Size): string {
    match size
    case Small => "text-sm px-3 h-9"
    case Medium => "text-base px-3 h-10"
    case Large => "text-lg px-3.5 h-12"
  }

  function ColorClass(color: string): string {
    "bg-" + color + "-500"
  }

  /** The class groups `classNames` joins: the base classes, the size's classes, and the
      colour's class when the colour is named. */
  function Classes(size: Size, color: string): seq<string> {
    [BaseClasses, SizeClass(size)] + (if IsNamedColor(color) then [ColorClass(color)] else [])
  }

  lemma SizeClassesDistinct(s: Size, t: Size)
    ensures SizeClass(s) == SizeClass(t) <==> s == t
    ensures SizeClass(s) != BaseClasses
    ensures SizeClass(s)[0] == 't'
  {
    assert SizeClass(Small)[5] == 's';
    assert SizeClass(Medium)[5] == 'b';
    assert SizeClass(Large)[5] == 'l';
    assert BaseClasses[0] == 'r';
  }

  lemma ColorClassesDistinct(c: string, d: string)
    ensures ColorClass(c) == ColorClass(d) <==> c == d
    ensures ColorClass(c)[0] == 'b'
  {
    if ColorClass(c) == ColorClass(d) {
      var cc := ColorClass(c);
      assert |c| == |d|;
      assert c == cc[3..3 + |c|];
    }
  }

  /** Exactly the given size's classes are present, and a colour class is present exactly
      for a named colour, and only that colour's. */
  lemma ClassesMeaning(size: Size, color: string)
    ensures forall s :: SizeClass(s) in Classes(size, color) <==> s == size
    ensures forall c :: ColorClass(c) in Classes(size, color) <==> IsNamedColor(color) && c == color
  {
    var cs := Classes(size, color);
    forall s
      ensures SizeClass(s) in cs <==> s == size
    {
      SizeClassesDistinct(s, size);
      if IsNamedColor(color) {
        ColorClassesDistinct(color, color);
      }
    }
    forall c
      ensures ColorClass(c) in cs <==> IsNamedColor(color) && c == color
    {
      ColorClassesDistinct(c, color);
      SizeClassesDistinct(size, size);
      assert BaseClasses[0] == 'r';
    }
  }

  /** The inline background: none for a named colour, the colour itself otherwise. */
  function BackgroundColor(color: string): (r: Option<string>)
    ensures r.None? <==> IsNamedColor(color)
    ensures r.Some? ==> r.value == color
  {
    if IsNamedColor(color) then None else Some(color)
  }

  /** Every button gets its background one way only: from a colour class or inline. */
  lemma OneBackground(size: Size, color: string)
    ensures BackgroundColor(color).Some? <==> !(exists c :: ColorClass(c) in Classes(size, color))
  {
    ClassesMeaning(size, color);
    if IsNamedColor(color) {
      assert ColorClass(color) in Classes(size, color);
    }
  }

  /** The string handed to the colour library: the colour class for a named colour, the
      colour otherwise. */
  function Shade(color: string): string {
    if IsNamedColor(color) then ColorClass(color) else color
  }

  /** The text colour; `isDark` is the colour library's darkness test. */
  function TextColor(color: string, isDark: string -> bool): (r: string)
    ensures r == "white" || r == "black"
    ensures r == "white" <==> isDark(Shade(color))
  {
    if isDark(Shade(color)) then "white" else "black"
  }
}
