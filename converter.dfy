/**
 * The colour-scheme contract shared by both formats, the generic copy from
 * one scheme to another, and the conversion of one iTerm2 scheme into
 * Terminal.app settings.
 */
module Converter {
  import opened Wrappers
  import opened Cocoa
  import opened ColorScheme
  import ITerm
  import Terminal

  /**
   * A reference to an object that conforms to the colour-scheme contract: a
   * name that can be read and written, and a colour subscript that can be
   * read and written. Each variant dispatches to its format.
   */
  datatype Scheme = ITermScheme(iterm: ITerm.ITermColorScheme) | TerminalScheme(terminal: Terminal.TerminalSettings) {

    /** The object that holds the scheme's state. */
    function Obj(): object {
      match this
      case ITermScheme(s) => s
      case TerminalScheme(s) => s
    }

    /** The backing dictionary. */
    function Dict(): PlistDict
      reads Obj()
    {
      match this
      case ITermScheme(s) => s.dict
      case TerminalScheme(s) => s.dict
    }

    /** The `name` getter. */
    function Name(): string
      reads Obj()
    {
      match this
      case ITermScheme(s) => s.name
      case TerminalScheme(s) => Terminal.NameOf(s.dict)
    }

    /** The name of the entry this format stores colour `index` under. */
    function KeyName(index: Color): string {
      match this
      case ITermScheme(_) => ITerm.KeyName(index)
      case TerminalScheme(_) => Terminal.KeyName(index)
    }

    /** The names of the entries this format stores the 21 colours under. */
    function ColorKeyNames(): set<string> {
      set c | c in AllColors :: KeyName(c)
    }

    /** The subscript getter of this format, on a backing dictionary. */
    function ColorIn(d: PlistDict, index: Color): Option<NSColor> {
      match this
      case ITermScheme(_) => ITerm.ColorAt(d, index)
      case TerminalScheme(_) => Terminal.ColorAt(d, index)
    }

    /** The subscript getter. */
    function ColorAt(index: Color): Option<NSColor>
      reads Obj()
    {
      ColorIn(Dict(), index)
    }

    /** The entry this format's setter leaves under a colour's key (nil: no entry). */
    function EncodedEntry(newValue: Option<NSColor>): Option<PlistValue> {
      match this
      case ITermScheme(_) => ITerm.EncodedEntry(newValue)
      case TerminalScheme(_) => Terminal.EncodedEntry(newValue)
    }

    /**
     * What the getter gives back for a colour that was set to `newValue`: the
     * iTerm2 format keeps only the RGB components, Terminal.app the whole colour.
     */
    function Stored(newValue: Option<NSColor>): Option<NSColor> {
      match this
      case ITermScheme(_) => if newValue.Some? then Some(ITerm.Opaque(newValue.value)) else None
      case TerminalScheme(_) => newValue
    }

    /** The getter reads back what the setter wrote, in both formats. */
    lemma ReadEncodedEntry(d: PlistDict, index: Color, v: Option<NSColor>)
      requires Lookup(d, KeyName(index)) == EncodedEntry(v)
      ensures ColorIn(d, index) == Stored(v)
    {
      match this
      case ITermScheme(_) => ITerm.ReadEncodedEntry(d, index, v);
      case TerminalScheme(_) => Terminal.ReadEncodedEntry(d, index, v);
    }

    /** Distinct colours are stored under distinct entries, in both formats. */
    lemma KeyNameInjective(c1: Color, c2: Color)
      ensures KeyName(c1) == KeyName(c2) ==> c1 == c2
    {
      match this
      case ITermScheme(_) => ITerm.KeyNameInjective(c1, c2);
      case TerminalScheme(_) => Terminal.KeyNameInjective(c1, c2);
    }

    /** Sets the name. */
    method SetName(newValue: string)
      modifies Obj()
      ensures Name() == newValue
      ensures this.ITermScheme? ==> Dict() == old(Dict())
      ensures this.TerminalScheme? ==> Dict() == old(Dict())["name" := PString(newValue)]
    {
      match this
      case ITermScheme(s) => s.name := newValue;
      case TerminalScheme(s) => s.SetName(newValue);
    }

    /**
     * The subscript setter: afterwards the colour's entry is the encoding of
     * `newValue` (absent for nil) and every other entry, and the name, are as
     * before.
     */
    method SetColorAt(index: Color, newValue: Option<NSColor>)
      modifies Obj()
      ensures Lookup(Dict(), KeyName(index)) == EncodedEntry(newValue)
      ensures forall k :: k != KeyName(index) ==> Lookup(Dict(), k) == Lookup(old(Dict()), k)
      ensures Name() == old(Name())
    {
      match this
      case ITermScheme(s) =>
        s.SetColorAt(index, newValue);
      case TerminalScheme(s) =>
        assert KeyName(index) in Terminal.ColorKeyNames() by { AllColorsEnumerates(); }
        Terminal.ProfileKeysAreNotColorKeys();
        s.SetColorAt(index, newValue);
    }

    /**
     * `copyTo`: sets each of the 21 colours of `other`, in declaration order,
     * to this scheme's colour. Afterwards every colour of `other` reads what
     * this scheme read before (as `other`'s format stores it); a colour this
     * scheme has no value for is removed from `other`; nothing of `other` but
     * its colour entries changes; and this scheme, when it is not `other`, is
     * unchanged. The result does not depend on whether the two are the same
     * object.
     */
    method CopyTo(other: Scheme)
      modifies other.Obj()
      ensures forall c :: Lookup(other.Dict(), other.KeyName(c)) == other.EncodedEntry(old(ColorAt(c)))
      ensures forall c :: other.ColorAt(c) == other.Stored(old(ColorAt(c)))
      ensures forall k :: k !in other.ColorKeyNames() ==> Lookup(other.Dict(), k) == Lookup(old(other.Dict()), k)
      ensures other.Name() == old(other.Name())
      ensures Obj() != other.Obj() ==> Dict() == old(Dict()) && Name() == old(Name())
    {
      ghost var values := seq(|AllColors|, j requires 0 <= j < |AllColors| reads Obj() => ColorAt(AllColors[j]));
      ghost var original := other.Dict();
      var i := 0;
      while i < |AllColors|
        invariant 0 <= i <= |AllColors|
        invariant other.Copied(other.Dict(), original, values, i)
        invariant forall j :: i <= j < |AllColors| ==> ColorAt(AllColors[j]) == values[j]
        invariant other.Name() == old(other.Name())
        invariant Obj() != other.Obj() ==> Dict() == old(Dict()) && Name() == old(Name())
      {
        var value := ColorAt(AllColors[i]);
        ghost var before := other.Dict();
        other.SetColorAt(AllColors[i], value);
        other.CopiedStep(before, other.Dict(), original, values, i);
        if Obj() == other.Obj() {
          SameObjectSameScheme(this, other);
          UncopiedColorsStay(before, Dict(), values, i);
        }
        i := i + 1;
      }
      other.CopiedAll(other.Dict(), original, values);
    }

    /**
     * After copying the first `i` of `values`: each copied colour's entry of
     * `d` is its encoding, and every other entry is as in `original`.
     */
    ghost predicate Copied(d: PlistDict, original: PlistDict, values: seq<Option<NSColor>>, i: nat)
      requires |values| == |AllColors| && i <= |AllColors|
    {
      && (forall j :: 0 <= j < i ==> Lookup(d, KeyName(AllColors[j])) == EncodedEntry(values[j]))
      && (forall k :: k !in KeyNamesOf(AllColors[..i]) ==> Lookup(d, k) == Lookup(original, k))
    }

    /** Setting colour `i` to its value extends the copied prefix by one. */
    lemma CopiedStep(before: PlistDict, after: PlistDict, original: PlistDict, values: seq<Option<NSColor>>, i: nat)
      requires |values| == |AllColors| && i < |AllColors|
      requires Copied(before, original, values, i)
      requires Lookup(after, KeyName(AllColors[i])) == EncodedEntry(values[i])
      requires forall k :: k != KeyName(AllColors[i]) ==> Lookup(after, k) == Lookup(before, k)
      ensures Copied(after, original, values, i + 1)
    {
      EarlierKeysDiffer(i);
      KeyNamesOfStep(i);
    }

    /** The colours before position `i` are stored under keys other than colour `i`'s. */
    lemma EarlierKeysDiffer(i: nat)
      requires i < |AllColors|
      ensures forall j :: 0 <= j < i ==> KeyName(AllColors[j]) != KeyName(AllColors[i])
    {
      forall j | 0 <= j < i
        ensures KeyName(AllColors[j]) != KeyName(AllColors[i])
      {
        DistinctPositions(j, i);
        KeyNameInjective(AllColors[j], AllColors[i]);
      }
    }

    /** Setting colour `i` leaves the colours after it reading as before. */
    lemma UncopiedColorsStay(before: PlistDict, after: PlistDict, values: seq<Option<NSColor>>, i: nat)
      requires |values| == |AllColors| && i < |AllColors|
      requires forall j :: i <= j < |AllColors| ==> ColorIn(before, AllColors[j]) == values[j]
      requires forall k :: k != KeyName(AllColors[i]) ==> Lookup(after, k) == Lookup(before, k)
      ensures forall j :: i < j < |AllColors| ==> ColorIn(after, AllColors[j]) == values[j]
    {
      forall j | i < j < |AllColors|
        ensures ColorIn(after, AllColors[j]) == values[j]
      {
        DistinctPositions(i, j);
        KeyNameInjective(AllColors[j], AllColors[i]);
        SameColorWhenEntrySame(this, before, after, AllColors[j]);
      }
    }

    /** Once all 21 colours are copied, every colour reads back its value. */
    lemma CopiedAll(d: PlistDict, original: PlistDict, values: seq<Option<NSColor>>)
      requires |values| == |AllColors|
      requires Copied(d, original, values, |AllColors|)
      ensures forall c :: Lookup(d, KeyName(c)) == EncodedEntry(values[Ordinal(c)])
      ensures forall c :: ColorIn(d, c) == Stored(values[Ordinal(c)])
      ensures forall k :: k !in ColorKeyNames() ==> Lookup(d, k) == Lookup(original, k)
    {
      KeyNamesOfAll();
      forall c
        ensures Lookup(d, KeyName(c)) == EncodedEntry(values[Ordinal(c)])
        ensures ColorIn(d, c) == Stored(values[Ordinal(c)])
      {
        ReadEncodedEntry(d, c, values[Ordinal(c)]);
      }
    }

    /** The names of the entries this format stores `colors` under. */
    function KeyNamesOf(colors: seq<Color>): set<string> {
      set c | c in colors :: KeyName(c)
    }

    /** Copying one more colour adds its key to the keys copied. */
    lemma KeyNamesOfStep(i: nat)
      requires i < |AllColors|
      ensures KeyNamesOf(AllColors[..i + 1]) == KeyNamesOf(AllColors[..i]) + {KeyName(AllColors[i])}
    {
      assert AllColors[..i + 1] == AllColors[..i] + [AllColors[i]];
    }

    /** All colours copied: the keys copied are all the colour keys. */
    lemma KeyNamesOfAll()
      ensures KeyNamesOf(AllColors[..|AllColors|]) == ColorKeyNames()
    {
      assert AllColors[..|AllColors|] == AllColors;
    }
  }

  /** Different positions of AllColors hold different colours. */
  lemma DistinctPositions(i: nat, j: nat)
    requires i < j < |AllColors|
    ensures AllColors[i] != AllColors[j]
  {
    OrdinalOfPosition(i);
    OrdinalOfPosition(j);
  }

  /** Two schemes over the same object are the same scheme. */
  lemma SameObjectSameScheme(a: Scheme, b: Scheme)
    requires a.Obj() == b.Obj()
    ensures a == b
  {
  }

  /** A colour's reading depends only on its own entry. */
  lemma SameColorWhenEntrySame(s: Scheme, d1: PlistDict, d2: PlistDict, index: Color)
    requires Lookup(d1, s.KeyName(index)) == Lookup(d2, s.KeyName(index))
    ensures s.ColorIn(d1, index) == s.ColorIn(d2, index)
  {
  }

  /**
   * `ITermColorScheme.load`: a scheme built from the dictionary read from the
   * file, or nil when the file could not be read as one. The file's contents
   * and the scheme name derived from its path are parameters.
   */
  method Load(contents: Option<PlistDict>, name: string) returns (scheme: ITerm.ITermColorScheme?)
    ensures scheme == null <==> contents.None?
    ensures scheme != null ==> scheme.name == name && scheme.dict == ITerm.Initialized(contents.value)
  {
    if contents.None? {
      return null;
    }
    scheme := new ITerm.ITermColorScheme(name, Some(contents.value));
  }

  /**
   * `convertToTerminalScheme`: loads the iTerm2 scheme, skipping the file when
   * it cannot be loaded; otherwise copies its colours into fresh Terminal.app
   * settings named `terminalName` and returns the dictionary that is saved.
   * The saved settings hold, under each colour's key, the archive of the
   * colour the loaded scheme reads, and a 90 x 50 window and the profile
   * defaults, and no other keys.
   */
  method ConvertToTerminalScheme(itermFile: Option<PlistDict>, itermName: string, terminalName: string)
    returns (saved: Option<PlistDict>)
    ensures saved.None? <==> itermFile.None?
    ensures saved.Some? ==> forall c ::
      Terminal.ColorAt(saved.value, c) == ITerm.ColorAt(ITerm.Initialized(itermFile.value), c)
    ensures saved.Some? ==> forall c ::
      Lookup(saved.value, Terminal.KeyName(c)) == Terminal.EncodedEntry(ITerm.ColorAt(ITerm.Initialized(itermFile.value), c))
    ensures saved.Some? ==> Terminal.NameOf(saved.value) == terminalName
    ensures saved.Some? ==> Terminal.WindowColumnsOf(saved.value) == Terminal.DefaultWindowColumns
    ensures saved.Some? ==> Terminal.WindowRowsOf(saved.value) == Terminal.DefaultWindowRows
    ensures saved.Some? ==> Lookup(saved.value, "ProfileCurrentVersion") == Some(PReal(2.04))
    ensures saved.Some? ==> Lookup(saved.value, "type") == Some(PString("Window Settings"))
    ensures saved.Some? ==> forall k :: k in saved.value ==>
      k in Terminal.ColorKeyNames() || k in {"name", "ProfileCurrentVersion", "type", "columnCount", "rowCount"}
    ensures saved.Some? ==>
      ((forall c :: Terminal.KeyName(c) in saved.value) <==> ITerm.WellFormedEntries(itermFile.value))
  {
    var itermScheme := Load(itermFile, itermName);
    if itermScheme == null {
      return None;
    }
    var terminalSettings := new Terminal.TerminalSettings(terminalName, None);
    var source, target := ITermScheme(itermScheme), TerminalScheme(terminalSettings);
    ghost var loaded := itermScheme.dict;
    source.CopyTo(target);
    saved := Some(terminalSettings.dict);
    assert target.ColorKeyNames() == Terminal.ColorKeyNames();
    assert forall c :: Lookup(saved.value, Terminal.KeyName(c)) == Terminal.EncodedEntry(ITerm.ColorAt(loaded, c)) by {
      forall c
        ensures Lookup(saved.value, Terminal.KeyName(c)) == Terminal.EncodedEntry(ITerm.ColorAt(loaded, c))
      {
        assert Lookup(target.Dict(), target.KeyName(c)) == target.EncodedEntry(ITerm.ColorAt(loaded, c));
      }
    }
    ConvertedSettings(terminalSettings.dict, loaded, terminalName);
    ConvertedColorsPresent(terminalSettings.dict, itermFile.value);
  }

  /**
   * Settings whose colour entries were copied from a constructed iTerm2 scheme
   * hold all 21 colour keys exactly when the iTerm2 input's colour entries are
   * well formed.
   */
  lemma ConvertedColorsPresent(d: PlistDict, input: PlistDict)
    requires forall c :: Lookup(d, Terminal.KeyName(c)) == Terminal.EncodedEntry(ITerm.ColorAt(ITerm.Initialized(input), c))
    ensures (forall c :: Terminal.KeyName(c) in d) <==> ITerm.WellFormedEntries(input)
  {
    ITerm.InitializedReadsEveryColor(input);
    assert forall c :: Terminal.KeyName(c) in d <==> ITerm.ColorAt(ITerm.Initialized(input), c).Some? by {
      forall c
        ensures Terminal.KeyName(c) in d <==> ITerm.ColorAt(ITerm.Initialized(input), c).Some?
      {
        assert Lookup(d, Terminal.KeyName(c)) == Terminal.EncodedEntry(ITerm.ColorAt(ITerm.Initialized(input), c));
      }
    }
  }

  /**
   * Terminal.app settings that started fresh with name `name` and then had
   * all 21 colours copied from an iTerm2 dictionary `source`.
   */
  lemma ConvertedSettings(d: PlistDict, source: PlistDict, name: string)
    requires forall c :: Lookup(d, Terminal.KeyName(c)) == Terminal.EncodedEntry(ITerm.ColorAt(source, c))
    requires forall k :: k !in Terminal.ColorKeyNames() ==> Lookup(d, k) == Lookup(Terminal.Initialized(map[], name), k)
    ensures forall c :: Terminal.ColorAt(d, c) == ITerm.ColorAt(source, c)
    ensures Terminal.NameOf(d) == name
    ensures Terminal.WindowColumnsOf(d) == Terminal.DefaultWindowColumns
    ensures Terminal.WindowRowsOf(d) == Terminal.DefaultWindowRows
    ensures Lookup(d, "ProfileCurrentVersion") == Some(PReal(2.04))
    ensures Lookup(d, "type") == Some(PString("Window Settings"))
    ensures forall k :: k in d ==>
      k in Terminal.ColorKeyNames() || k in {"name", "ProfileCurrentVersion", "type", "columnCount", "rowCount"}
  {
    var defaults := Terminal.Initialized(map[], name);
    Terminal.ProfileKeysAreNotColorKeys();
    Terminal.FreshSettings(name, Color.Black);
    assert defaults.Keys == {"name", "ProfileCurrentVersion", "type", "columnCount", "rowCount"};
    forall c
      ensures Terminal.ColorAt(d, c) == ITerm.ColorAt(source, c)
    {
      Terminal.ReadEncodedEntry(d, c, ITerm.ColorAt(source, c));
    }
    forall k | k in {"name", "ProfileCurrentVersion", "type", "columnCount", "rowCount"}
      ensures Lookup(d, k) == Lookup(defaults, k)
    {
    }
  }
}
