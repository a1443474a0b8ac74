/**
 * The vocabulary shared by every colour-scheme format: the 21 well known
 * colours of a terminal emulator.
 */
module ColorScheme {

  /** The set of well known colours of a terminal emulator. */
  datatype Color =
    | Black | Red | Green | Yellow | Blue | Magenta | Cyan | White
    | BrightBlack | BrightRed | BrightGreen | BrightYellow
    | BrightBlue | BrightMagenta | BrightCyan | BrightWhite
    | Background | Foreground | Selection | Bold | Cursor

  /** Every colour, in declaration order: the order in which a scheme is copied. */
  const AllColors: seq<Color> := [
    Black, Red, Green, Yellow, Blue, Magenta, Cyan, White,
    BrightBlack, BrightRed, BrightGreen, BrightYellow,
    BrightBlue, BrightMagenta, BrightCyan, BrightWhite,
    Background, Foreground, Selection, Bold, Cursor
  ]

  /** The position of a colour in the declaration. */
  function Ordinal(c: Color): (n: nat)
    ensures n < |AllColors| && AllColors[n] == c
  {
    match c
    case Black => 0
    case Red => 1
    case Green => 2
    case Yellow => 3
    case Blue => 4
    case Magenta => 5
    case Cyan => 6
    case White => 7
    case BrightBlack => 8
    case BrightRed => 9
    case BrightGreen => 10
    case BrightYellow => 11
    case BrightBlue => 12
    case BrightMagenta => 13
    case BrightCyan => 14
    case BrightWhite => 15
    case Background => 16
    case Foreground => 17
    case Selection => 18
    case Bold => 19
    case Cursor => 20
  }

  /** The first 16 colours are the ANSI palette: 8 plain colours, then their bright counterparts. */
  predicate IsAnsi(c: Color) {
    Ordinal(c) < 16
  }

  /**
   * There are exactly 21 colours and they are pairwise distinct: AllColors lists
   * each of them once.
   */
  lemma AllColorsEnumerates()
    ensures |AllColors| == 21
    ensures forall c: Color :: c in AllColors
    ensures forall i, j :: 0 <= i < j < |AllColors| ==> AllColors[i] != AllColors[j]
  {
    forall c: Color
      ensures c in AllColors
    {
      assert AllColors[Ordinal(c)] == c;
    }
    forall i, j | 0 <= i < j < |AllColors|
      ensures AllColors[i] != AllColors[j]
    {
      OrdinalOfPosition(i);
      OrdinalOfPosition(j);
    }
  }

  /** Ordinal inverts indexing into AllColors. */
  lemma OrdinalOfPosition(i: nat)
    requires i < |AllColors|
    ensures Ordinal(AllColors[i]) == i
  {
  }

  /** The ANSI colours come first, the five named roles last. */
  lemma AnsiColorsFirst()
    ensures forall c: Color :: IsAnsi(c) <==> c !in {Background, Foreground, Selection, Bold, Cursor}
  {
  }
}
