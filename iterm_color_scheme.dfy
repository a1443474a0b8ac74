/**
 * An iTerm2 colour scheme (.itermcolors file). Each colour is stored as a
 * nested dictionary holding its red, green and blue components under fixed
 * names; construction fills every one of the format's 23 colour keys with
 * black when it does not already hold a dictionary.
 */
module ITerm {
  import opened Wrappers
  import opened Cocoa
  import opened ColorScheme

  /** The dictionary key names used for the components of a colour entry. */
  datatype ITermColorComponentKey = Red | Green | Blue {
    function RawValue(): string {
      match this
      case Red => "Red Component"
      case Green => "Green Component"
      case Blue => "Blue Component"
    }
  }

  /** The dictionary key names of the colour entries of a scheme. */
  datatype ITermColorKey =
    | Ansi0 | Ansi1 | Ansi2 | Ansi3 | Ansi4 | Ansi5 | Ansi6 | Ansi7
    | Ansi8 | Ansi9 | Ansi10 | Ansi11 | Ansi12 | Ansi13 | Ansi14 | Ansi15
    | CursorText | SelectedText | Foreground | Background | Bold | Selection | Cursor
  {
    function RawValue(): string {
      match this
      case Ansi0 => "Ansi 0 Color"
      case Ansi1 => "Ansi 1 Color"
      case Ansi2 => "Ansi 2 Color"
      case Ansi3 => "Ansi 3 Color"
      case Ansi4 => "Ansi 4 Color"
      case Ansi5 => "Ansi 5 Color"
      case Ansi6 => "Ansi 6 Color"
      case Ansi7 => "Ansi 7 Color"
      case Ansi8 => "Ansi 8 Color"
      case Ansi9 => "Ansi 9 Color"
      case Ansi10 => "Ansi 10 Color"
      case Ansi11 => "Ansi 11 Color"
      case Ansi12 => "Ansi 12 Color"
      case Ansi13 => "Ansi 13 Color"
      case Ansi14 => "Ansi 14 Color"
      case Ansi15 => "Ansi 15 Color"
      case CursorText => "Cursor Text Color"
      case SelectedText => "Selected Text Color"
      case Foreground => "Foreground Color"
      case Background => "Background Color"
      case Bold => "Bold Color"
      case Selection => "Selection Color"
      case Cursor => "Cursor Color"
    }
  }

  /** The keys in the order the constructor fills them. */
  const InitializationOrder: seq<ITermColorKey> := [
    Ansi0, Ansi1, Ansi2, Ansi3, Ansi4, Ansi5, Ansi6, Ansi7,
    Ansi8, Ansi9, Ansi10, Ansi11, Ansi12, Ansi13, Ansi14, Ansi15,
    CursorText, SelectedText, ITermColorKey.Foreground, ITermColorKey.Background,
    ITermColorKey.Bold, ITermColorKey.Selection, ITermColorKey.Cursor
  ]

  /** The names of all 23 colour entries of the format. */
  function NativeKeyNames(): set<string> {
    FilledNames(|InitializationOrder|)
  }

  /** The names of the 21 entries that some Color is stored under. */
  function MappedKeyNames(): set<string> {
    set c | c in AllColors :: AsITermColorKey(c).RawValue()
  }

  /** Distinct keys have distinct names, so they never share a dictionary entry. */
  lemma RawValueInjective(k1: ITermColorKey, k2: ITermColorKey)
    ensures k1.RawValue() == k2.RawValue() ==> k1 == k2
  {
    // The length, and where lengths agree the characters at 0, 5 or 6, tell the 23 names apart.
    if k1.RawValue() == k2.RawValue() {
      var s1, s2 := k1.RawValue(), k2.RawValue();
      assert |s1| == |s2|;
      if |s1| == 12 {
        assert s1[0] == s2[0] && s1[5] == s2[5];
      } else if |s1| == 13 {
        assert s1[6] == s2[6];
      } else if |s1| == 16 {
        assert s1[0] == s2[0];
      }
    }
  }

  /** Every key of the format is filled by the constructor. */
  lemma InitializationOrderComplete(k: ITermColorKey)
    ensures k in InitializationOrder
  {
    match k
    case Ansi0 => assert InitializationOrder[0] == k;
    case Ansi1 => assert InitializationOrder[1] == k;
    case Ansi2 => assert InitializationOrder[2] == k;
    case Ansi3 => assert InitializationOrder[3] == k;
    case Ansi4 => assert InitializationOrder[4] == k;
    case Ansi5 => assert InitializationOrder[5] == k;
    case Ansi6 => assert InitializationOrder[6] == k;
    case Ansi7 => assert InitializationOrder[7] == k;
    case Ansi8 => assert InitializationOrder[8] == k;
    case Ansi9 => assert InitializationOrder[9] == k;
    case Ansi10 => assert InitializationOrder[10] == k;
    case Ansi11 => assert InitializationOrder[11] == k;
    case Ansi12 => assert InitializationOrder[12] == k;
    case Ansi13 => assert InitializationOrder[13] == k;
    case Ansi14 => assert InitializationOrder[14] == k;
    case Ansi15 => assert InitializationOrder[15] == k;
    case CursorText => assert InitializationOrder[16] == k;
    case SelectedText => assert InitializationOrder[17] == k;
    case Foreground => assert InitializationOrder[18] == k;
    case Background => assert InitializationOrder[19] == k;
    case Bold => assert InitializationOrder[20] == k;
    case Selection => assert InitializationOrder[21] == k;
    case Cursor => assert InitializationOrder[22] == k;
  }

  /**
   * The entry key of a colour. Swift declares the result optional, but every
   * colour has a key, so the model returns it directly.
   */
  function AsITermColorKey(c: Color): ITermColorKey {
    match c
    case Black => Ansi0
    case Red => Ansi1
    case Green => Ansi2
    case Yellow => Ansi3
    case Blue => Ansi4
    case Magenta => Ansi5
    case Cyan => Ansi6
    case White => Ansi7
    case BrightBlack => Ansi8
    case BrightRed => Ansi9
    case BrightGreen => Ansi10
    case BrightYellow => Ansi11
    case BrightBlue => Ansi12
    case BrightMagenta => Ansi13
    case BrightCyan => Ansi14
    case BrightWhite => Ansi15
    case Background => ITermColorKey.Background
    case Foreground => ITermColorKey.Foreground
    case Selection => ITermColorKey.Selection
    case Bold => ITermColorKey.Bold
    case Cursor => ITermColorKey.Cursor
  }

  /**
   * The colour a key stores, if any: the inverse of AsITermColorKey. The
   * cursor-text and selected-text keys store no colour.
   */
  function ColorForKey(k: ITermColorKey): Option<Color> {
    match k
    case Ansi0 => Some(Color.Black)
    case Ansi1 => Some(Color.Red)
    case Ansi2 => Some(Color.Green)
    case Ansi3 => Some(Color.Yellow)
    case Ansi4 => Some(Color.Blue)
    case Ansi5 => Some(Color.Magenta)
    case Ansi6 => Some(Color.Cyan)
    case Ansi7 => Some(Color.White)
    case Ansi8 => Some(Color.BrightBlack)
    case Ansi9 => Some(Color.BrightRed)
    case Ansi10 => Some(Color.BrightGreen)
    case Ansi11 => Some(Color.BrightYellow)
    case Ansi12 => Some(Color.BrightBlue)
    case Ansi13 => Some(Color.BrightMagenta)
    case Ansi14 => Some(Color.BrightCyan)
    case Ansi15 => Some(Color.BrightWhite)
    case Background => Some(Color.Background)
    case Foreground => Some(Color.Foreground)
    case Selection => Some(Color.Selection)
    case Bold => Some(Color.Bold)
    case Cursor => Some(Color.Cursor)
    case CursorText => None
    case SelectedText => None
  }

  /** AsITermColorKey has ColorForKey as its left inverse. */
  lemma ColorForKeyInverts(c: Color)
    ensures ColorForKey(AsITermColorKey(c)) == Some(c)
  {
    match c
    case Black =>
    case Red =>
    case Green =>
    case Yellow =>
    case Blue =>
    case Magenta =>
    case Cyan =>
    case White =>
    case BrightBlack =>
    case BrightRed =>
    case BrightGreen =>
    case BrightYellow =>
    case BrightBlue =>
    case BrightMagenta =>
    case BrightCyan =>
    case BrightWhite =>
    case Background =>
    case Foreground =>
    case Selection =>
    case Bold =>
    case Cursor =>
  }

  /**
   * The colour mapping is injective and leaves the cursor-text and
   * selected-text keys without a colour.
   */
  lemma AsITermColorKeyInjective(c1: Color, c2: Color)
    ensures AsITermColorKey(c1) == AsITermColorKey(c2) ==> c1 == c2
    ensures AsITermColorKey(c1) != CursorText && AsITermColorKey(c1) != SelectedText
  {
    ColorForKeyInverts(c1);
    ColorForKeyInverts(c2);
  }

  /** The palette slot N of an "Ansi N Color" key, or nil for a named key. */
  function AnsiSlot(k: ITermColorKey): Option<nat> {
    match k
    case Ansi0 => Some(0)
    case Ansi1 => Some(1)
    case Ansi2 => Some(2)
    case Ansi3 => Some(3)
    case Ansi4 => Some(4)
    case Ansi5 => Some(5)
    case Ansi6 => Some(6)
    case Ansi7 => Some(7)
    case Ansi8 => Some(8)
    case Ansi9 => Some(9)
    case Ansi10 => Some(10)
    case Ansi11 => Some(11)
    case Ansi12 => Some(12)
    case Ansi13 => Some(13)
    case Ansi14 => Some(14)
    case Ansi15 => Some(15)
    case _ => None
  }

  /**
   * The i-th ANSI colour is stored under "Ansi i Color" (Black..White under
   * 0..7, their bright variants under 8..15), and the five named colours
   * under named keys.
   */
  lemma AnsiColorKeys(c: Color)
    ensures IsAnsi(c) ==> AnsiSlot(AsITermColorKey(c)) == Some(Ordinal(c))
    ensures !IsAnsi(c) ==> AnsiSlot(AsITermColorKey(c)) == None
  {
    match c
    case Black =>
    case Red =>
    case Green =>
    case Yellow =>
    case Blue =>
    case Magenta =>
    case Cyan =>
    case White =>
    case BrightBlack =>
    case BrightRed =>
    case BrightGreen =>
    case BrightYellow =>
    case BrightBlue =>
    case BrightMagenta =>
    case BrightCyan =>
    case BrightWhite =>
    case Background =>
    case Foreground =>
    case Selection =>
    case Bold =>
    case Cursor =>
  }

  /** The name of the entry a colour is stored under. */
  function KeyName(c: Color): string {
    AsITermColorKey(c).RawValue()
  }

  /** Distinct colours are stored under distinct entry names. */
  lemma KeyNameInjective(c1: Color, c2: Color)
    ensures KeyName(c1) == KeyName(c2) ==> c1 == c2
  {
    RawValueInjective(AsITermColorKey(c1), AsITermColorKey(c2));
    AsITermColorKeyInjective(c1, c2);
  }

  /** The component dictionary `setColor` stores. */
  function ComponentDictionary(r: real, g: real, b: real): PlistValue {
    PDict(map[
      ITermColorComponentKey.Red.RawValue() := PReal(r),
      ITermColorComponentKey.Green.RawValue() := PReal(g),
      ITermColorComponentKey.Blue.RawValue() := PReal(b)])
  }

  /** The entry `setBlackIfMissing` stores. */
  const BlackEntry: PlistValue := ComponentDictionary(0.0, 0.0, 0.0)

  /** One component of a colour entry, read as a CGFloat. */
  function Component(entry: PlistDict, k: ITermColorComponentKey): Option<real> {
    AsCGFloat(Lookup(entry, k.RawValue()))
  }

  /** A colour at full opacity: what the getter builds from three components. */
  function Opaque(c: NSColor): NSColor {
    NSColor(c.red, c.green, c.blue, 1.0)
  }

  /**
   * The subscript getter: the colour stored for `index`, or nil when its entry
   * is missing, is not a dictionary, or lacks a numeric red, green or blue
   * component.
   */
  function ColorAt(d: PlistDict, index: Color): Option<NSColor> {
    match AsDictionary(Lookup(d, KeyName(index)))
    case None => None
    case Some(entry) =>
      match (Component(entry, ITermColorComponentKey.Red),
             Component(entry, ITermColorComponentKey.Green),
             Component(entry, ITermColorComponentKey.Blue))
      case (Some(r), Some(g), Some(b)) => Some(NSColor(r, g, b, 1.0))
      case _ => None
  }

  /** The entry the setter leaves under a colour's key (nil: no entry). */
  function EncodedEntry(newValue: Option<NSColor>): Option<PlistValue> {
    match newValue
    case Some(color) => Some(ComponentDictionary(color.red, color.green, color.blue))
    case None => None
  }

  /** The subscript setter, on the backing dictionary. */
  function WithColorAt(d: PlistDict, index: Color, newValue: Option<NSColor>): PlistDict {
    Store(d, KeyName(index), EncodedEntry(newValue))
  }

  /**
   * Reading a colour whose entry was written by the setter gives back its RGB
   * components at full opacity; reading one whose entry is absent gives nil.
   */
  lemma ReadEncodedEntry(d: PlistDict, index: Color, v: Option<NSColor>)
    requires Lookup(d, KeyName(index)) == EncodedEntry(v)
    ensures ColorAt(d, index) == if v.Some? then Some(Opaque(v.value)) else None
  {
    if v.Some? {
      var entry := ComponentDictionary(v.value.red, v.value.green, v.value.blue).entries;
      assert Component(entry, ITermColorComponentKey.Red) == Some(v.value.red);
      assert Component(entry, ITermColorComponentKey.Green) == Some(v.value.green);
      assert Component(entry, ITermColorComponentKey.Blue) == Some(v.value.blue);
    }
  }

  /** Every colour read from a scheme is opaque. */
  lemma ColorAtIsOpaque(d: PlistDict, index: Color)
    ensures ColorAt(d, index).Some? ==> ColorAt(d, index).value.alpha == 1.0
  {
  }

  /**
   * Setting colour `index` to `c` and reading it back gives `c`'s components
   * at full opacity; setting it to nil removes its entry and reads back nil.
   */
  lemma SetThenGet(d: PlistDict, index: Color, newValue: Option<NSColor>)
    ensures newValue.Some? ==> ColorAt(WithColorAt(d, index, newValue), index) == Some(Opaque(newValue.value))
    ensures newValue.None? ==> KeyName(index) !in WithColorAt(d, index, newValue)
    ensures newValue.None? ==> ColorAt(WithColorAt(d, index, newValue), index) == None
  {
    ReadEncodedEntry(WithColorAt(d, index, newValue), index, newValue);
  }

  /** The setter changes no entry except the one of the colour it sets. */
  lemma SetChangesOnlyItsKey(d: PlistDict, index: Color, newValue: Option<NSColor>, key: string)
    requires key != KeyName(index)
    ensures Lookup(WithColorAt(d, index, newValue), key) == Lookup(d, key)
  {
  }

  /** Setting one colour leaves every other colour reading as before. */
  lemma SetKeepsOtherColors(d: PlistDict, index: Color, newValue: Option<NSColor>, other: Color)
    requires other != index
    ensures ColorAt(WithColorAt(d, index, newValue), other) == ColorAt(d, other)
  {
    KeyNameInjective(index, other);
    SetChangesOnlyItsKey(d, index, newValue, KeyName(other));
  }

  /** Whether `d` holds a dictionary under `name`. */
  predicate HoldsDictionary(d: PlistDict, name: string) {
    AsDictionary(Lookup(d, name)).Some?
  }

  /**
   * `setBlackIfMissing` applied to each name in `names`: every such entry that
   * does not hold a dictionary becomes black; all other entries are kept.
   */
  function WithBlackIfMissing(d: PlistDict, names: set<string>): PlistDict {
    map k | k in d.Keys + names :: if k in names && !HoldsDictionary(d, k) then BlackEntry else d[k]
  }

  /** Filling one more name extends the set of filled names. */
  lemma WithBlackIfMissingStep(d: PlistDict, names: set<string>, name: string)
    ensures WithBlackIfMissing(WithBlackIfMissing(d, names), {name}) == WithBlackIfMissing(d, names + {name})
  {
    var once := WithBlackIfMissing(d, names);
    var lhs := WithBlackIfMissing(once, {name});
    var rhs := WithBlackIfMissing(d, names + {name});
    assert lhs.Keys == rhs.Keys;
    forall k | k in lhs.Keys
      ensures lhs[k] == rhs[k]
    {
      if k in names && !HoldsDictionary(d, k) {
        assert once[k] == BlackEntry;
        assert HoldsDictionary(once, k);
      }
    }
  }

  /** The names of the first `n` keys the constructor fills. */
  function FilledNames(n: nat): set<string>
    requires n <= |InitializationOrder|
  {
    set k | k in InitializationOrder[..n] :: k.RawValue()
  }

  /** Filling the next key adds its name to the filled names. */
  lemma FilledNamesStep(n: nat)
    requires n < |InitializationOrder|
    ensures FilledNames(n + 1) == FilledNames(n) + {InitializationOrder[n].RawValue()}
  {
    assert InitializationOrder[..n + 1] == InitializationOrder[..n] + [InitializationOrder[n]];
  }

  /** The backing dictionary right after construction from `d`. */
  function Initialized(d: PlistDict): PlistDict {
    WithBlackIfMissing(d, NativeKeyNames())
  }

  /**
   * After construction every one of the 23 native keys holds a dictionary; a
   * key that held none now holds black; every other entry (dictionary-valued
   * colour entries and keys unrelated to colour) is unchanged.
   */
  lemma InitializedEntries(d: PlistDict, name: string)
    ensures name in NativeKeyNames() ==> HoldsDictionary(Initialized(d), name)
    ensures name in NativeKeyNames() && !HoldsDictionary(d, name) ==> Lookup(Initialized(d), name) == Some(BlackEntry)
    ensures name !in NativeKeyNames() || HoldsDictionary(d, name) ==> Lookup(Initialized(d), name) == Lookup(d, name)
  {
  }

  /** Every colour's key is one of the native keys. */
  lemma KeyNameIsNative(c: Color)
    ensures KeyName(c) in NativeKeyNames()
    ensures KeyName(c) in MappedKeyNames()
  {
    InitializationOrderComplete(AsITermColorKey(c));
    assert c in AllColors by { AllColorsEnumerates(); }
  }

  /** A scheme built without a dictionary reads black, at full opacity, for all 21 colours. */
  lemma FreshSchemeIsBlack(c: Color)
    ensures ColorAt(Initialized(map[]), c) == Some(NSColor(0.0, 0.0, 0.0, 1.0))
  {
    KeyNameIsNative(c);
    InitializedEntries(map[], KeyName(c));
    ReadEncodedEntry(Initialized(map[]), c, Some(NSColor(0.0, 0.0, 0.0, 1.0)));
  }

  /** Whether a colour entry holds numeric red, green and blue components. */
  predicate HasComponents(entry: PlistDict) {
    && Component(entry, ITermColorComponentKey.Red).Some?
    && Component(entry, ITermColorComponentKey.Green).Some?
    && Component(entry, ITermColorComponentKey.Blue).Some?
  }

  /**
   * The getter has a value exactly when the colour's entry is a dictionary
   * holding all three numeric components; so an entry that is missing or is
   * not a dictionary reads nil.
   */
  lemma ColorAtDefined(d: PlistDict, c: Color)
    ensures ColorAt(d, c).Some? <==> HoldsDictionary(d, KeyName(c)) && HasComponents(d[KeyName(c)].entries)
    ensures !HoldsDictionary(d, KeyName(c)) ==> ColorAt(d, c) == None
  {
  }

  /**
   * Whether every entry read as one of the 21 colours that holds a dictionary
   * holds all three numeric components (the cursor-text and selected-text
   * entries, which no colour reads, are not constrained).
   */
  predicate WellFormedEntries(d: PlistDict) {
    forall c: Color :: HoldsDictionary(d, KeyName(c)) ==> HasComponents(d[KeyName(c)].entries)
  }

  /**
   * Construction keeps a colour entry that is a dictionary even when it lacks
   * a component, and that colour then reads nil.
   */
  lemma MalformedEntryReadsNil(d: PlistDict, c: Color)
    requires HoldsDictionary(d, KeyName(c))
    requires !HasComponents(d[KeyName(c)].entries)
    ensures ColorAt(Initialized(d), c) == None
  {
    KeyNameIsNative(c);
    InitializedEntries(d, KeyName(c));
    ColorAtDefined(Initialized(d), c);
  }

  /**
   * After construction every one of the 21 colours reads a value exactly when
   * every colour entry of the input that is a dictionary is well formed.
   */
  lemma InitializedReadsEveryColor(d: PlistDict)
    ensures (forall c: Color :: ColorAt(Initialized(d), c).Some?) <==> WellFormedEntries(d)
  {
    if WellFormedEntries(d) {
      forall c: Color
        ensures ColorAt(Initialized(d), c).Some?
      {
        KeyNameIsNative(c);
        InitializedEntries(d, KeyName(c));
        if !HoldsDictionary(d, KeyName(c)) {
          ReadEncodedEntry(Initialized(d), c, Some(NSColor(0.0, 0.0, 0.0, 1.0)));
        } else {
          ColorAtDefined(Initialized(d), c);
        }
      }
    } else {
      var c: Color :| HoldsDictionary(d, KeyName(c)) && !HasComponents(d[KeyName(c)].entries);
      MalformedEntryReadsNil(d, c);
    }
  }

  /** An iTerm2 colour scheme over its mutable backing dictionary. */
  class ITermColorScheme {
    var dict: PlistDict
    var name: string

    constructor (name: string, dict: Option<PlistDict>)
      ensures this.name == name
      ensures this.dict == Initialized(dict.GetOr(map[]))
    {
      this.dict := dict.GetOr(map[]);
      this.name := name;
      new;
      InitializeColors();
    }

    /** The subscript setter: stores the colour's components, or removes its entry on nil. */
    method SetColorAt(index: Color, newValue: Option<NSColor>)
      modifies this
      ensures dict == WithColorAt(old(dict), index, newValue)
      ensures name == old(name)
    {
      var colorKey := AsITermColorKey(index);
      match newValue
      case Some(color) =>
        SetColor(colorKey, color.red, color.green, color.blue);
      case None =>
        dict := dict - {colorKey.RawValue()};
    }

    /** Fills each of the 23 native keys, in order, with black when it holds no dictionary. */
    method InitializeColors()
      modifies this
      ensures dict == Initialized(old(dict))
      ensures name == old(name)
    {
      var i := 0;
      while i < |InitializationOrder|
        invariant 0 <= i <= |InitializationOrder|
        invariant dict == WithBlackIfMissing(old(dict), FilledNames(i))
        invariant name == old(name)
      {
        FilledNamesStep(i);
        WithBlackIfMissingStep(old(dict), FilledNames(i), InitializationOrder[i].RawValue());
        SetBlackIfMissing(InitializationOrder[i]);
        i := i + 1;
      }
    }

    /** Stores black under `colorKey` unless its entry already is a dictionary. */
    method SetBlackIfMissing(colorKey: ITermColorKey)
      modifies this
      ensures dict == WithBlackIfMissing(old(dict), {colorKey.RawValue()})
      ensures name == old(name)
    {
      var entry := AsDictionary(Lookup(dict, colorKey.RawValue()));
      if entry == None {
        SetColor(colorKey, 0.0, 0.0, 0.0);
      }
    }

    /** Replaces the entry of `colorKey` with a fresh component dictionary. */
    method SetColor(colorKey: ITermColorKey, r: real, g: real, b: real)
      modifies this
      ensures dict == old(dict)[colorKey.RawValue() := ComponentDictionary(r, g, b)]
      ensures name == old(name)
    {
      dict := dict[colorKey.RawValue() := ComponentDictionary(r, g, b)];
    }
  }
}
