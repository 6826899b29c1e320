/**
 * LabelFactory: labels share one font whose glyph set is a static set that
 * the first call to createFont fills and later calls leave alone.
 */
module Labels {
  import opened Engine

  const TYPEFACE: string := "OpenSans-Regular.ttf"

  /** FontFactory.createFont(typeface, symbols, 30f, 0f); size and spacing are left out. */
  datatype Font = Font(typeface: string, glyphs: set<char>)

  /** A label: its text (position, font, symbols) and the colour of its texture. */
  datatype Label = Label(position: Vec3, font: Font, symbols: string, color: Color)

  /** The characters createFont adds to the empty glyph set, in call order. */
  const ADDED: seq<char> := ['H', 'e', 'l', 'l', 'o', 'L', 'e', 'f', 't', 'R', 'i', 'g', 'h', 't']

  /** The characters occurring in a string. */
  function CharsOf(s: string): (cs: set<char>)
    ensures forall c :: c in cs <==> c in s
  {
    set c | c in s
  }

  /** The glyph set once it has been filled. */
  function Glyphs(): set<char>
  {
    CharsOf(ADDED)
  }

  /** The glyph set after one call of createFont, given the set before it. */
  function Filled(symbols: set<char>): (r: set<char>)
    ensures symbols <= r
    ensures r == symbols <==> symbols != {}
    ensures symbols == {} ==> r == Glyphs()
  {
    assert 'H' in Glyphs();
    if symbols == {} then Glyphs() else symbols
  }

  /** The label createLabel returns once the glyph set is filled. */
  function NewLabel(position: Vec3, color: Color, symbols: string): (l: Label)
    ensures l.position == position && l.symbols == symbols && l.color == color
    ensures l.font.glyphs == Glyphs()
  {
    Label(position, Font(TYPEFACE, Glyphs()), symbols, color)
  }

  /** Filling is idempotent: a second createFont finds the set non-empty and leaves it. */
  lemma FilledIdempotent(symbols: set<char>)
    ensures Filled(Filled(symbols)) == Filled(symbols)
  {
  }

  /** The 14 adds leave exactly these characters: the repeated 'l', 'e' and 't' add nothing. */
  lemma GlyphsExactly()
    ensures Glyphs() == {'H', 'e', 'l', 'o', 'L', 'f', 't', 'R', 'i', 'g', 'h'}
  {
  }

  /** The filled glyph set holds 11 distinct characters. */
  lemma GlyphCount()
    ensures |Glyphs()| == 11
  {
    var g := {'H', 'e', 'l', 'o', 'L', 'f', 't', 'R', 'i', 'g', 'h'};
    assert |g| == 11;
    GlyphsExactly();
  }

  /** The glyph set is exactly the characters of the three label texts the states use. */
  lemma GlyphsCoverLabelTexts()
    ensures Glyphs() == CharsOf("Hello") + CharsOf("Left") + CharsOf("Right")
  {
    forall c ensures c in Glyphs() <==> c in CharsOf("Hello") + CharsOf("Left") + CharsOf("Right") {
    }
  }

  /** The factory's static glyph set as an object whose set is updated in place. */
  class LabelFactory {
    var symbols: set<char>

    /** The set is either still empty or holds the full glyph set. */
    ghost predicate Valid()
      reads this
    {
      symbols == {} || symbols == Glyphs()
    }

    constructor ()
      ensures Valid() && symbols == {}
    {
      symbols := {};
    }

    /** createFont: fill the set if it is empty, then build the font over it. */
    method CreateFont() returns (font: Font)
      requires Valid()
      modifies this
      ensures Valid()
      ensures symbols == Filled(old(symbols))
      ensures old(symbols) <= symbols
      ensures symbols == Glyphs()
      ensures font == Font(TYPEFACE, symbols)
    {
      if symbols == {} {
        symbols := symbols + {'H'};
        symbols := symbols + {'e'};
        symbols := symbols + {'l'};
        symbols := symbols + {'l'};
        symbols := symbols + {'o'};

        symbols := symbols + {'L'};
        symbols := symbols + {'e'};
        symbols := symbols + {'f'};
        symbols := symbols + {'t'};

        symbols := symbols + {'R'};
        symbols := symbols + {'i'};
        symbols := symbols + {'g'};
        symbols := symbols + {'h'};
        symbols := symbols + {'t'};
        assert symbols == {'H', 'e', 'l', 'o', 'L', 'f', 't', 'R', 'i', 'g', 'h'};
        GlyphsExactly();
      }
      font := Font(TYPEFACE, symbols);
    }

    /** createLabel: the position, text and colour are passed through unchanged. */
    method CreateLabel(position: Vec3, color: Color, text: string) returns (lbl: Label)
      requires Valid()
      modifies this
      ensures Valid()
      ensures symbols == Filled(old(symbols))
      ensures lbl == NewLabel(position, color, text)
    {
      var font := CreateFont();
      lbl := Label(position, font, text, color);
    }
  }
}
