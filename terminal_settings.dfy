/**
 * Terminal.app settings (a .terminal file), which include a colour scheme.
 * Each colour is stored as the keyed archive of an NSColor under its own key;
 * construction fills in profile defaults that are missing but leaves colour
 * keys absent.
 */
module Terminal {
  import opened Wrappers
  import opened Cocoa
  import opened ColorScheme

  const DefaultWindowColumns: int := 90
  const DefaultWindowRows: int := 50

  /** The dictionary key names of the colour entries of the settings. */
  datatype TerminalColorKey =
    | AnsiBlack | AnsiRed | AnsiGreen | AnsiYellow
    | AnsiBlue | AnsiMagenta | AnsiCyan | AnsiWhite
    | AnsiBrightBlack | AnsiBrightRed | AnsiBrightGreen | AnsiBrightYellow
    | AnsiBrightBlue | AnsiBrightMagenta | AnsiBrightCyan | AnsiBrightWhite
    | Background | Text | BoldText | Selection
    | Cursor
  {
    function RawValue(): string {
      match this
      case AnsiBlack => "ANSIBlackColor"
      case AnsiRed => "ANSIRedColor"
      case AnsiGreen => "ANSIGreenColor"
      case AnsiYellow => "ANSIYellowColor"
      case AnsiBlue => "ANSIBlueColor"
      case AnsiMagenta => "ANSIMagentaColor"
      case AnsiCyan => "ANSICyanColor"
      case AnsiWhite => "ANSIWhiteColor"
      case AnsiBrightBlack => "ANSIBrightBlackColor"
      case AnsiBrightRed => "ANSIBrightRedColor"
      case AnsiBrightGreen => "ANSIBrightGreenColor"
      case AnsiBrightYellow => "ANSIBrightYellowColor"
      case AnsiBrightBlue => "ANSIBrightBlueColor"
      case AnsiBrightMagenta => "ANSIBrightMagentaColor"
      case AnsiBrightCyan => "ANSIBrightCyanColor"
      case AnsiBrightWhite => "ANSIBrightWhiteColor"
      case Background => "BackgroundColor"
      case Text => "TextColor"
      case BoldText => "BoldTextColor"
      case Selection => "SelectionColor"
      case Cursor => "CursorColor"
    }
  }

  /** Distinct keys have distinct names, so they never share a dictionary entry. */
  lemma RawValueInjective(k1: TerminalColorKey, k2: TerminalColorKey)
    ensures k1.RawValue() == k2.RawValue() ==> k1 == k2
  {
    // The length and the characters at 4 and 10 already tell the 21 names apart.
    if k1.RawValue() == k2.RawValue() {
      var s1, s2 := k1.RawValue(), k2.RawValue();
      assert (|s1|, CharAt(s1, 4), CharAt(s1, 10)) == (|s2|, CharAt(s2, 4), CharAt(s2, 10));
    }
  }

  /**
   * The entry key of a colour. Swift declares the result optional, but every
   * colour has a key, so the model returns it directly.
   */
  function AsTerminalColorKey(c: Color): TerminalColorKey {
    match c
    case Black => AnsiBlack
    case Red => AnsiRed
    case Green => AnsiGreen
    case Yellow => AnsiYellow
    case Blue => AnsiBlue
    case Magenta => AnsiMagenta
    case Cyan => AnsiCyan
    case White => AnsiWhite
    case BrightBlack => AnsiBrightBlack
    case BrightRed => AnsiBrightRed
    case BrightGreen => AnsiBrightGreen
    case BrightYellow => AnsiBrightYellow
    case BrightBlue => AnsiBrightBlue
    case BrightMagenta => AnsiBrightMagenta
    case BrightCyan => AnsiBrightCyan
    case BrightWhite => AnsiBrightWhite
    case Background => TerminalColorKey.Background
    case Foreground => Text
    case Selection => TerminalColorKey.Selection
    case Bold => BoldText
    case Cursor => TerminalColorKey.Cursor
  }

  /** The colour a key stores: the inverse of AsTerminalColorKey. */
  function ColorForKey(k: TerminalColorKey): Color {
    match k
    case AnsiBlack => Color.Black
    case AnsiRed => Color.Red
    case AnsiGreen => Color.Green
    case AnsiYellow => Color.Yellow
    case AnsiBlue => Color.Blue
    case AnsiMagenta => Color.Magenta
    case AnsiCyan => Color.Cyan
    case AnsiWhite => Color.White
    case AnsiBrightBlack => Color.BrightBlack
    case AnsiBrightRed => Color.BrightRed
    case AnsiBrightGreen => Color.BrightGreen
    case AnsiBrightYellow => Color.BrightYellow
    case AnsiBrightBlue => Color.BrightBlue
    case AnsiBrightMagenta => Color.BrightMagenta
    case AnsiBrightCyan => Color.BrightCyan
    case AnsiBrightWhite => Color.BrightWhite
    case Background => Color.Background
    case Text => Color.Foreground
    case Selection => Color.Selection
    case BoldText => Color.Bold
    case Cursor => Color.Cursor
  }

  /**
   * The colour mapping is a bijection onto the 21 keys; Foreground is stored as
   * "TextColor" and Bold as "BoldTextColor".
   */
  lemma AsTerminalColorKeyBijective(c: Color, k: TerminalColorKey)
    ensures ColorForKey(AsTerminalColorKey(c)) == c
    ensures AsTerminalColorKey(ColorForKey(k)) == k
    ensures AsTerminalColorKey(Color.Foreground).RawValue() == "TextColor"
    ensures AsTerminalColorKey(Color.Bold).RawValue() == "BoldTextColor"
  {
    ColorForKeyInverts(c);
    KeyForColorInverts(k);
  }

  /** ColorForKey is a left inverse of AsTerminalColorKey. */
  lemma ColorForKeyInverts(c: Color)
    ensures ColorForKey(AsTerminalColorKey(c)) == c
  {
    match c
    case Black =>
    case Red =>
    case Green =>
    case Yellow =>
    case Blue =>
    case Magenta =>
    case Cyan =>
    case White =>
    case BrightBlack =>
    case BrightRed =>
    case BrightGreen =>
    case BrightYellow =>
    case BrightBlue =>
    case BrightMagenta =>
    case BrightCyan =>
    case BrightWhite =>
    case Background =>
    case Foreground =>
    case Selection =>
    case Bold =>
    case Cursor =>
  }

  /** ColorForKey is a right inverse of AsTerminalColorKey. */
  lemma KeyForColorInverts(k: TerminalColorKey)
    ensures AsTerminalColorKey(ColorForKey(k)) == k
  {
    match k
    case AnsiBlack =>
    case AnsiRed =>
    case AnsiGreen =>
    case AnsiYellow =>
    case AnsiBlue =>
    case AnsiMagenta =>
    case AnsiCyan =>
    case AnsiWhite =>
    case AnsiBrightBlack =>
    case AnsiBrightRed =>
    case AnsiBrightGreen =>
    case AnsiBrightYellow =>
    case AnsiBrightBlue =>
    case AnsiBrightMagenta =>
    case AnsiBrightCyan =>
    case AnsiBrightWhite =>
    case Background =>
    case Text =>
    case BoldText =>
    case Selection =>
    case Cursor =>
  }

  /** The name of the entry a colour is stored under. */
  function KeyName(c: Color): string {
    AsTerminalColorKey(c).RawValue()
  }

  /** Distinct colours are stored under distinct entry names. */
  lemma KeyNameInjective(c1: Color, c2: Color)
    ensures KeyName(c1) == KeyName(c2) ==> c1 == c2
  {
    RawValueInjective(AsTerminalColorKey(c1), AsTerminalColorKey(c2));
    AsTerminalColorKeyBijective(c1, AsTerminalColorKey(c2));
    AsTerminalColorKeyBijective(c2, AsTerminalColorKey(c1));
  }

  /** The names of the 21 colour entries. */
  function ColorKeyNames(): set<string> {
    set c | c in AllColors :: KeyName(c)
  }

  /** The keys of the non-colour settings the model knows about. */
  const ProfileKeys: set<string> := {"name", "ProfileCurrentVersion", "type", "columnCount", "rowCount", "Font"}

  /** No setting shares its key with a colour. */
  lemma ProfileKeysAreNotColorKeys()
    ensures ProfileKeys !! ColorKeyNames()
  {
    forall c | c in AllColors
      ensures KeyName(c) !in ProfileKeys
    {
      ColorKeyInitial(c);
    }
  }

  /** Every colour key starts with one of 'A', 'B', 'C', 'S', 'T', as no setting key does. */
  lemma ColorKeyInitial(c: Color)
    ensures |KeyName(c)| > 0 && KeyName(c)[0] in "ABCST"
  {
    match c
    case Black =>
    case Red =>
    case Green =>
    case Yellow =>
    case Blue =>
    case Magenta =>
    case Cyan =>
    case White =>
    case BrightBlack =>
    case BrightRed =>
    case BrightGreen =>
    case BrightYellow =>
    case BrightBlue =>
    case BrightMagenta =>
    case BrightCyan =>
    case BrightWhite =>
    case Background =>
    case Foreground =>
    case Selection =>
    case Bold =>
    case Cursor =>
  }

  /** The name getter: the string under "name", or "" when absent or not a string. */
  function NameOf(d: PlistDict): string {
    AsString(Lookup(d, "name")).GetOr("")
  }

  /** The windowColumns getter: the integer under "columnCount", or 0. */
  function WindowColumnsOf(d: PlistDict): int {
    AsInt(Lookup(d, "columnCount")).GetOr(0)
  }

  /** The windowRows getter: the integer under "rowCount", or 0. */
  function WindowRowsOf(d: PlistDict): int {
    AsInt(Lookup(d, "rowCount")).GetOr(0)
  }

  /** The font getter: the font archived under "Font", or nil. */
  function FontOf(d: PlistDict): Option<NSFont> {
    match AsData(Lookup(d, "Font"))
    case Some(data) => AsFont(UnarchiveObjectWithData(data))
    case None => None
  }

  /** The entry the font setter leaves under "Font" (nil: no entry). */
  function EncodedFont(newValue: Option<NSFont>): Option<PlistValue> {
    match newValue
    case Some(font) => Some(PData(ArchivedDataWithRootObject(ArchivedFont(font))))
    case None => None
  }

  /**
   * The subscript getter: the colour archived under the colour's key, or nil
   * when the entry is missing, is not data, or does not hold a colour.
   */
  function ColorAt(d: PlistDict, index: Color): Option<NSColor> {
    match AsData(Lookup(d, KeyName(index)))
    case Some(data) => AsColor(UnarchiveObjectWithData(data))
    case None => None
  }

  /** The entry the colour setter leaves under a colour's key (nil: no entry). */
  function EncodedEntry(newValue: Option<NSColor>): Option<PlistValue> {
    match newValue
    case Some(color) => Some(PData(ArchivedDataWithRootObject(ArchivedColor(color))))
    case None => None
  }

  /** The subscript setter, on the backing dictionary. */
  function WithColorAt(d: PlistDict, index: Color, newValue: Option<NSColor>): PlistDict {
    Store(d, KeyName(index), EncodedEntry(newValue))
  }

  /** Reading a colour whose entry was written by the setter gives back exactly what was written. */
  lemma ReadEncodedEntry(d: PlistDict, index: Color, v: Option<NSColor>)
    requires Lookup(d, KeyName(index)) == EncodedEntry(v)
    ensures ColorAt(d, index) == v
  {
    if v.Some? {
      UnarchiveArchived(ArchivedColor(v.value));
    }
  }

  /**
   * Setting colour `index` and reading it back gives what was set, colour and
   * alpha alike; setting nil removes the colour's entry.
   */
  lemma SetThenGet(d: PlistDict, index: Color, newValue: Option<NSColor>)
    ensures ColorAt(WithColorAt(d, index, newValue), index) == newValue
    ensures newValue.None? <==> KeyName(index) !in WithColorAt(d, index, newValue)
  {
    ReadEncodedEntry(WithColorAt(d, index, newValue), index, newValue);
  }

  /** The colour setter changes no entry except the one of the colour it sets. */
  lemma SetChangesOnlyItsKey(d: PlistDict, index: Color, newValue: Option<NSColor>, key: string)
    requires key != KeyName(index)
    ensures Lookup(WithColorAt(d, index, newValue), key) == Lookup(d, key)
  {
  }

  /** Setting one colour leaves every other colour reading as before. */
  lemma SetKeepsOtherColors(d: PlistDict, index: Color, newValue: Option<NSColor>, other: Color)
    requires other != index
    ensures ColorAt(WithColorAt(d, index, newValue), other) == ColorAt(d, other)
  {
    KeyNameInjective(index, other);
    SetChangesOnlyItsKey(d, index, newValue, KeyName(other));
  }

  /** Setting a colour leaves the name, window size and font as they were. */
  lemma SetColorKeepsSettings(d: PlistDict, index: Color, newValue: Option<NSColor>)
    ensures NameOf(WithColorAt(d, index, newValue)) == NameOf(d)
    ensures WindowColumnsOf(WithColorAt(d, index, newValue)) == WindowColumnsOf(d)
    ensures WindowRowsOf(WithColorAt(d, index, newValue)) == WindowRowsOf(d)
    ensures FontOf(WithColorAt(d, index, newValue)) == FontOf(d)
  {
    assert KeyName(index) in ColorKeyNames() by { AllColorsEnumerates(); }
    ProfileKeysAreNotColorKeys();
  }

  /** The setting setters store what the getters give back and touch only their own key. */
  lemma SettingsRoundTrip(d: PlistDict, name: string, columns: int, rows: int, font: Option<NSFont>)
    ensures NameOf(d["name" := PString(name)]) == name
    ensures WindowColumnsOf(d["columnCount" := PInteger(columns)]) == columns
    ensures WindowRowsOf(d["rowCount" := PInteger(rows)]) == rows
    ensures FontOf(Store(d, "Font", EncodedFont(font))) == font
    ensures font.None? ==> "Font" !in Store(d, "Font", EncodedFont(font))
  {
    if font.Some? {
      UnarchiveArchived(ArchivedFont(font.value));
    }
  }

  /**
   * The setting getters fall back to their defaults: "" for a name that is
   * absent or not a string, 0 for a window size that is absent or not a
   * number, nil for a font that is absent or not data.
   */
  lemma GetterDefaults(d: PlistDict)
    ensures "name" !in d || !d["name"].PString? ==> NameOf(d) == ""
    ensures "columnCount" !in d || !IsNumber(d["columnCount"]) ==> WindowColumnsOf(d) == 0
    ensures "rowCount" !in d || !IsNumber(d["rowCount"]) ==> WindowRowsOf(d) == 0
    ensures "Font" !in d || !d["Font"].PData? ==> FontOf(d) == None
  {
  }

  /** The font getter reads a font exactly when "Font" holds that font's archive. */
  lemma FontOfReadsArchive(d: PlistDict, font: NSFont)
    ensures FontOf(d) == Some(font) <==> Lookup(d, "Font") == EncodedFont(Some(font))
  {
    if Lookup(d, "Font") == EncodedFont(Some(font)) {
      UnarchiveArchived(ArchivedFont(font));
    }
  }

  /**
   * The colour getter reads a colour exactly when the colour's key holds that
   * colour's archive; any other entry, or none, reads nil.
   */
  lemma ColorAtReadsArchive(d: PlistDict, index: Color, color: NSColor)
    ensures ColorAt(d, index) == Some(color) <==> Lookup(d, KeyName(index)) == EncodedEntry(Some(color))
  {
    if Lookup(d, KeyName(index)) == EncodedEntry(Some(color)) {
      ReadEncodedEntry(d, index, Some(color));
    }
  }

  /** `setDefaultIfMissing`: stores `value` under `key` only when the key is absent. */
  function WithDefaultIfMissing(d: PlistDict, key: string, value: PlistValue): PlistDict {
    if key in d then d else d[key := value]
  }

  /**
   * `setDefaultIfMissing` keeps a value already present and otherwise stores
   * `value`; no other key changes, and a second call changes nothing.
   */
  lemma DefaultIfMissingEntries(d: PlistDict, key: string, value: PlistValue, other: string, again: PlistValue)
    ensures Lookup(WithDefaultIfMissing(d, key, value), key) == if key in d then Some(d[key]) else Some(value)
    ensures other != key ==> Lookup(WithDefaultIfMissing(d, key, value), other) == Lookup(d, other)
    ensures WithDefaultIfMissing(WithDefaultIfMissing(d, key, value), key, again) == WithDefaultIfMissing(d, key, value)
  {
  }

  /** The backing dictionary right after construction from `d` with name `name`. */
  function Initialized(d: PlistDict, name: string): PlistDict {
    var named := d["name" := PString(name)];
    var versioned := WithDefaultIfMissing(named, "ProfileCurrentVersion", PReal(2.04));
    var typed := WithDefaultIfMissing(versioned, "type", PString("Window Settings"));
    var sized := WithDefaultIfMissing(typed, "columnCount", PInteger(DefaultWindowColumns));
    WithDefaultIfMissing(sized, "rowCount", PInteger(DefaultWindowRows))
  }

  /** The four profile defaults and the values construction stores for them. */
  function ProfileDefault(key: string): Option<PlistValue> {
    if key == "ProfileCurrentVersion" then Some(PReal(2.04))
    else if key == "type" then Some(PString("Window Settings"))
    else if key == "columnCount" then Some(PInteger(DefaultWindowColumns))
    else if key == "rowCount" then Some(PInteger(DefaultWindowRows))
    else None
  }

  /**
   * After construction the name is the given one; each profile default is
   * present, and keeps its earlier value if it had one; every other key,
   * colours included, is as in the input.
   */
  lemma InitializedEntries(d: PlistDict, name: string, key: string)
    ensures NameOf(Initialized(d, name)) == name
    ensures key != "name" && ProfileDefault(key).Some? ==>
      Lookup(Initialized(d, name), key) == if key in d then Some(d[key]) else ProfileDefault(key)
    ensures key != "name" && ProfileDefault(key).None? ==>
      Lookup(Initialized(d, name), key) == Lookup(d, key)
  {
  }

  /** Construction does not touch the colours of the input. */
  lemma InitializedKeepsColors(d: PlistDict, name: string, c: Color)
    ensures ColorAt(Initialized(d, name), c) == ColorAt(d, c)
  {
    assert KeyName(c) in ColorKeyNames() by { AllColorsEnumerates(); }
    ProfileKeysAreNotColorKeys();
    InitializedEntries(d, name, KeyName(c));
  }

  /**
   * Settings built without a dictionary have the profile defaults, a 90 x 50
   * window and the given name, and no value for any of the 21 colours.
   */
  lemma FreshSettings(name: string, c: Color)
    ensures NameOf(Initialized(map[], name)) == name
    ensures WindowColumnsOf(Initialized(map[], name)) == DefaultWindowColumns
    ensures WindowRowsOf(Initialized(map[], name)) == DefaultWindowRows
    ensures Lookup(Initialized(map[], name), "ProfileCurrentVersion") == Some(PReal(2.04))
    ensures Lookup(Initialized(map[], name), "type") == Some(PString("Window Settings"))
    ensures ColorAt(Initialized(map[], name), c) == None
    ensures KeyName(c) !in Initialized(map[], name)
  {
    InitializedKeepsColors(map[], name, c);
    assert Initialized(map[], name).Keys == {"name", "ProfileCurrentVersion", "type", "columnCount", "rowCount"};
    ProfileKeysAreNotColorKeys();
    assert KeyName(c) in ColorKeyNames() by { AllColorsEnumerates(); }
  }

  /** Terminal.app settings over their mutable backing dictionary. */
  class TerminalSettings {
    var dict: PlistDict

    constructor (name: string, dict: Option<PlistDict>)
      ensures this.dict == Initialized(dict.GetOr(map[]), name)
    {
      this.dict := dict.GetOr(map[]);
      new;
      SetName(name);
      SetDefaultIfMissing("ProfileCurrentVersion", PReal(2.04));
      SetDefaultIfMissing("type", PString("Window Settings"));
      SetDefaultIfMissing("columnCount", PInteger(DefaultWindowColumns));
      SetDefaultIfMissing("rowCount", PInteger(DefaultWindowRows));
    }

    /** The name setter. */
    method SetName(newValue: string)
      modifies this
      ensures dict == old(dict)["name" := PString(newValue)]
      ensures NameOf(dict) == newValue
    {
      dict := dict["name" := PString(newValue)];
    }

    /** The windowColumns setter. */
    method SetWindowColumns(newValue: int)
      modifies this
      ensures dict == old(dict)["columnCount" := PInteger(newValue)]
      ensures WindowColumnsOf(dict) == newValue
    {
      dict := dict["columnCount" := PInteger(newValue)];
    }

    /** The windowRows setter. */
    method SetWindowRows(newValue: int)
      modifies this
      ensures dict == old(dict)["rowCount" := PInteger(newValue)]
      ensures WindowRowsOf(dict) == newValue
    {
      dict := dict["rowCount" := PInteger(newValue)];
    }

    /** The font setter: archives the font under "Font", or removes the key on nil. */
    method SetFont(newValue: Option<NSFont>)
      modifies this
      ensures dict == Store(old(dict), "Font", EncodedFont(newValue))
      ensures FontOf(dict) == newValue
    {
      match newValue
      case Some(font) =>
        dict := dict["Font" := PData(ArchivedDataWithRootObject(ArchivedFont(font)))];
      case None =>
        dict := dict - {"Font"};
    }

    /** The subscript setter: archives the colour under its key, or removes the key on nil. */
    method SetColorAt(index: Color, newValue: Option<NSColor>)
      modifies this
      ensures dict == WithColorAt(old(dict), index, newValue)
    {
      var colorKey := AsTerminalColorKey(index);
      match newValue
      case Some(color) =>
        dict := dict[colorKey.RawValue() := PData(ArchivedDataWithRootObject(ArchivedColor(color)))];
      case None =>
        dict := dict - {colorKey.RawValue()};
    }

    /** Stores `value` under `key` unless the key is present. */
    method SetDefaultIfMissing(key: string, value: PlistValue)
      modifies this
      ensures dict == WithDefaultIfMissing(old(dict), key, value)
    {
      var existingValue := Lookup(dict, key);
      if existingValue == None {
        dict := dict[key := value];
      }
    }
  }
}
