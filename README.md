# iTerm2 → Terminal.app colour-scheme converter: a Dafny model of the mapping layer

The converter reads an iTerm2 colour scheme (`.itermcolors`), copies its 21
well known colours into fresh Terminal.app settings (`.terminal`) and writes
those out. This project models its core: the `Color` enumeration and the
`ColorScheme` contract, the two format adapters `ITermColorScheme` and
`TerminalSettings`, and the generic `copyTo` together with the
load-copy-save shape of `convertToTerminalScheme`.

Files and modules:

- `wrappers.dfy` (`Wrappers`): `Option`, standing in for Swift optionals.
- `cocoa.dfy` (`Cocoa`): property-list values and dictionaries, `NSColor`,
  `NSFont`, the keyed archiver as an abstract, invertible encoding, and Swift 2's
  `as?` casts from a dictionary entry (`as? Int` and `as? CGFloat` accept any
  NSNumber, as Swift 2's bridging does; `as? Int` truncates a real).
- `color_scheme.dfy` (`ColorScheme`): the 21 colours in declaration order.
- `iterm_color_scheme.dfy` (`ITerm`): the iTerm2 keys, `asITermColorKey`, the
  subscript getter and setter on the backing dictionary, the constructor's
  black-filling, and the class `ITermColorScheme` whose methods update the
  dictionary in place.
- `terminal_settings.dfy` (`Terminal`): the Terminal.app keys,
  `asTerminalColorKey`, the getters with their defaults, the setters, the
  constructor's profile defaults, and the class `TerminalSettings`.
- `converter.dfy` (`Converter`): the `ColorScheme` contract as a sum over the
  two classes (`Scheme`), `copyTo`, `ITermColorScheme.load` and
  `convertToTerminalScheme`.

Each class keeps its backing `NSMutableDictionary` as a field of type
`map<string, PlistValue>` that its methods reassign; every setter method is
specified by a function on the dictionary (`WithColorAt`, `WithBlackIfMissing`,
`WithDefaultIfMissing`, `Initialized`), and the round trips, frame conditions
and default policies are lemmas about those functions. The source writes
`initializeColors` as 23 successive `setBlackIfMissing` calls and `copyTo` as
21 successive assignments; the model runs the same calls in the same order as a
loop over the ordered key list and colour list.

The model follows the code, including three consequences of it that a reader of
the converter's documentation might not expect:

- Converting an iTerm2 document that defines only some colours does not leave the
  other Terminal.app colour keys absent: the iTerm2 constructor first fills every
  missing colour with black, so all 21 keys are written whenever the entries present
  are well formed (`ITerm.InitializedReadsEveryColor`, `Converter.ConvertToTerminalScheme`).
- The constructor only replaces entries that are not dictionaries. A colour entry
  that is a dictionary lacking a component is kept and reads nil, so copying it
  removes the Terminal.app key (`ITerm.MalformedEntryReadsNil`); the saved settings
  hold all 21 colour keys exactly when every colour entry of the input that is a
  dictionary has three numeric components (`Converter.ConvertedColorsPresent`).
- The iTerm2 getter always returns alpha 1 and the setter keeps only the RGB
  components, while Terminal.app archives the whole colour; a copy into an iTerm2
  scheme therefore reads back the colour made opaque (`Converter.Scheme.Stored`).

## Model

| member | source | states |
|---|---|---|
| ColorScheme.AllColorsEnumerates | iTermColorSchemeConverter/ColorScheme.swift:10-33 | there are exactly 21 colours, pairwise distinct, listed once each in declaration order |
| ColorScheme.AnsiColorsFirst | iTermColorSchemeConverter/ColorScheme.swift:10-33 | the first 16 colours are the ANSI palette and the last five are Background, Foreground, Selection, Bold, Cursor |
| Cocoa.AsInt | iTermColorSchemeConverter/TerminalSettings.swift:36-41 | `as? Int` succeeds exactly on numeric entries (integer, real, boolean) |
| Cocoa.AsCGFloat | iTermColorSchemeConverter/ITermColorScheme.swift:30-32 | `as? CGFloat` succeeds exactly on numeric entries |
| Cocoa.Store | iTermColorSchemeConverter/TerminalSettings.swift:53-56 | assigning an optional to a dictionary key stores the value, or removes the key on nil, and changes no other key |
| Cocoa.UnarchiveObjectWithData | iTermColorSchemeConverter/TerminalSettings.swift:48 | unarchiving yields an object exactly when the data is a keyed archive |
| ITerm.RawValueInjective | iTermColorSchemeConverter/ITermColorScheme.swift:102-126 | the 23 iTerm2 key names are pairwise distinct |
| ITerm.ColorForKeyInverts | iTermColorSchemeConverter/ITermColorScheme.swift:129-154 | `asITermColorKey` has a left inverse, which gives no colour for the cursor-text and selected-text keys |
| ITerm.AsITermColorKeyInjective | iTermColorSchemeConverter/ITermColorScheme.swift:129-154 | `asITermColorKey` is injective and never yields CursorText or SelectedText |
| ITerm.AnsiColorKeys | iTermColorSchemeConverter/ITermColorScheme.swift:129-154 | the i-th ANSI colour goes to "Ansi i Color" (Black..White to 0..7, bright variants to 8..15); the named colours go to named keys |
| ITerm.KeyNameInjective | iTermColorSchemeConverter/ITermColorScheme.swift:128-154 | distinct colours are stored under distinct dictionary entries |
| ITerm.InitializationOrderComplete | iTermColorSchemeConverter/ITermColorScheme.swift:49-73 | the constructor fills every one of the 23 keys |
| ITerm.ReadEncodedEntry | iTermColorSchemeConverter/ITermColorScheme.swift:26-37 | an entry written by the setter reads back as its RGB components with alpha 1; an absent entry reads nil |
| ITerm.ColorAtIsOpaque | iTermColorSchemeConverter/ITermColorScheme.swift:34 | every colour the getter returns has alpha 1 |
| ITerm.SetThenGet | iTermColorSchemeConverter/ITermColorScheme.swift:38-46 | setting c to a colour then reading c gives its components with alpha 1; setting nil removes c's key and reads nil |
| ITerm.SetChangesOnlyItsKey | iTermColorSchemeConverter/ITermColorScheme.swift:39-44 | the setter changes no dictionary entry except c's key |
| ITerm.SetKeepsOtherColors | iTermColorSchemeConverter/ITermColorScheme.swift:38-46 | setting c leaves every other colour reading as before |
| ITerm.WithBlackIfMissingStep | iTermColorSchemeConverter/ITermColorScheme.swift:75-80 | filling one more key with black when it holds no dictionary extends the filled set |
| ITerm.InitializedEntries | iTermColorSchemeConverter/ITermColorScheme.swift:13-18 | after construction all 23 keys hold dictionaries; a key that held none holds black; dictionary entries and unrelated keys are unchanged |
| ITerm.KeyNameIsNative | iTermColorSchemeConverter/ITermColorScheme.swift:49-73 | every colour's key is one of the 23 keys the constructor fills |
| ITerm.FreshSchemeIsBlack | iTermColorSchemeConverter/ITermColorScheme.swift:49-80 | a scheme built with no dictionary reads black with alpha 1 for all 21 colours |
| ITerm.InitializedReadsEveryColor | iTermColorSchemeConverter/ITermColorScheme.swift:13-37 | after construction all 21 colours read a value if and only if every colour entry of the input that is a dictionary holds three numeric components (the two text-colour entries are not constrained) |
| ITerm.MalformedEntryReadsNil | iTermColorSchemeConverter/ITermColorScheme.swift:28-36 | for every colour, an entry that is a dictionary lacking a numeric red, green or blue component survives construction and reads nil |
| ITerm.ColorAtDefined | iTermColorSchemeConverter/ITermColorScheme.swift:26-37 | the getter has a value exactly when the entry is a dictionary with all three numeric components; a missing or non-dictionary entry reads nil |
| ITerm.AsITermColorKey | iTermColorSchemeConverter/ITermColorScheme.swift:129-154 | the colour-to-key switch; its properties are stated by `ITerm.ColorForKeyInverts`, `ITerm.AsITermColorKeyInjective` and `ITerm.AnsiColorKeys` |
| ITerm.ColorAt | iTermColorSchemeConverter/ITermColorScheme.swift:26-37 | the subscript getter; nil for a missing, non-dictionary or incomplete entry (`ITerm.ColorAtDefined`), opaque otherwise (`ITerm.ColorAtIsOpaque`), and the inverse of the setter (`ITerm.ReadEncodedEntry`) |
| ITerm.WithColorAt | iTermColorSchemeConverter/ITermColorScheme.swift:38-46 | the subscript setter on the dictionary; read back by `ITerm.SetThenGet`, framed by `ITerm.SetChangesOnlyItsKey` and `ITerm.SetKeepsOtherColors` |
| ITerm.Initialized | iTermColorSchemeConverter/ITermColorScheme.swift:13-18 | the dictionary after construction; its entries are stated by `ITerm.InitializedEntries`, `ITerm.FreshSchemeIsBlack` and `ITerm.InitializedReadsEveryColor` |
| ITerm.ITermColorScheme.constructor | iTermColorSchemeConverter/ITermColorScheme.swift:13-18 | the scheme has the given name and the input dictionary (empty when nil) with black filled in |
| ITerm.ITermColorScheme.SetColorAt | iTermColorSchemeConverter/ITermColorScheme.swift:38-46 | the subscript setter updates the dictionary as `WithColorAt` and keeps the name |
| ITerm.ITermColorScheme.InitializeColors | iTermColorSchemeConverter/ITermColorScheme.swift:49-73 | the 23 `setBlackIfMissing` calls leave the dictionary `Initialized` |
| ITerm.ITermColorScheme.SetBlackIfMissing | iTermColorSchemeConverter/ITermColorScheme.swift:75-80 | stores black under the key unless it already holds a dictionary |
| ITerm.ITermColorScheme.SetColor | iTermColorSchemeConverter/ITermColorScheme.swift:82-90 | replaces the key's entry with a dictionary of the three named components |
| Terminal.RawValueInjective | iTermColorSchemeConverter/TerminalSettings.swift:88-110 | the 21 Terminal.app key names are pairwise distinct |
| Terminal.AsTerminalColorKeyBijective | iTermColorSchemeConverter/TerminalSettings.swift:112-137 | `asTerminalColorKey` is a bijection onto the 21 keys; Foreground goes to "TextColor" and Bold to "BoldTextColor" |
| Terminal.KeyNameInjective | iTermColorSchemeConverter/TerminalSettings.swift:88-137 | distinct colours are stored under distinct dictionary entries |
| Terminal.ProfileKeysAreNotColorKeys | iTermColorSchemeConverter/TerminalSettings.swift:20-58 | "name", "ProfileCurrentVersion", "type", "columnCount", "rowCount" and "Font" are not colour keys |
| Terminal.ReadEncodedEntry | iTermColorSchemeConverter/TerminalSettings.swift:60-68 | an entry written by the colour setter reads back as exactly the colour written; an absent one reads nil |
| Terminal.SetThenGet | iTermColorSchemeConverter/TerminalSettings.swift:60-77 | setting c then reading c gives what was set; setting nil is exactly what leaves c's key absent |
| Terminal.SetChangesOnlyItsKey | iTermColorSchemeConverter/TerminalSettings.swift:69-77 | the colour setter changes no dictionary entry except c's key |
| Terminal.SetKeepsOtherColors | iTermColorSchemeConverter/TerminalSettings.swift:69-77 | setting c leaves every other colour reading as before |
| Terminal.SetColorKeepsSettings | iTermColorSchemeConverter/TerminalSettings.swift:30-77 | setting a colour leaves name, window columns, window rows and font unchanged |
| Terminal.SettingsRoundTrip | iTermColorSchemeConverter/TerminalSettings.swift:30-58 | name, windowColumns, windowRows and font read back what was set; setting font to nil removes "Font" |
| Terminal.AsTerminalColorKey | iTermColorSchemeConverter/TerminalSettings.swift:112-137 | the colour-to-key switch; `Terminal.AsTerminalColorKeyBijective` proves it a bijection onto the 21 keys |
| Terminal.NameOf | iTermColorSchemeConverter/TerminalSettings.swift:31 | the name getter: "" when "name" is absent or not a string (`Terminal.GetterDefaults`), the stored name after a set (`Terminal.SettingsRoundTrip`) |
| Terminal.WindowColumnsOf | iTermColorSchemeConverter/TerminalSettings.swift:36 | the columns getter: 0 when "columnCount" is absent or not a number (`Terminal.GetterDefaults`), the stored count after a set (`Terminal.SettingsRoundTrip`) |
| Terminal.WindowRowsOf | iTermColorSchemeConverter/TerminalSettings.swift:41 | the rows getter: 0 when "rowCount" is absent or not a number (`Terminal.GetterDefaults`), the stored count after a set (`Terminal.SettingsRoundTrip`) |
| Terminal.FontOf | iTermColorSchemeConverter/TerminalSettings.swift:46-51 | the font getter: nil unless "Font" holds that font's archive (`Terminal.FontOfReadsArchive`, `Terminal.GetterDefaults`) |
| Terminal.ColorAt | iTermColorSchemeConverter/TerminalSettings.swift:60-68 | the colour getter: a colour exactly when the key holds its archive, nil otherwise (`Terminal.ColorAtReadsArchive`) |
| Terminal.GetterDefaults | iTermColorSchemeConverter/TerminalSettings.swift:30-51 | the getters give "" for a missing or non-string name, 0 for a missing or non-numeric size, nil for a missing or non-data font |
| Terminal.FontOfReadsArchive | iTermColorSchemeConverter/TerminalSettings.swift:45-58 | the font getter reads a font exactly when "Font" holds the archive the setter writes for it |
| Terminal.ColorAtReadsArchive | iTermColorSchemeConverter/TerminalSettings.swift:60-77 | the colour getter reads a colour exactly when the colour's key holds the archive the setter writes for it |
| Terminal.WithDefaultIfMissing | iTermColorSchemeConverter/TerminalSettings.swift:80-85 | `setDefaultIfMissing` on the dictionary; stated by `Terminal.DefaultIfMissingEntries` |
| Terminal.DefaultIfMissingEntries | iTermColorSchemeConverter/TerminalSettings.swift:80-85 | a present value is kept, an absent key gets the default, no other key changes, and a repeated call changes nothing |
| Terminal.Initialized | iTermColorSchemeConverter/TerminalSettings.swift:16-24 | the dictionary after construction; stated by `Terminal.InitializedEntries`, `Terminal.InitializedKeepsColors` and `Terminal.FreshSettings` |
| Terminal.InitializedEntries | iTermColorSchemeConverter/TerminalSettings.swift:16-24 | after construction the name is the given one, each profile default is present and keeps an earlier value, other keys are as input |
| Terminal.InitializedKeepsColors | iTermColorSchemeConverter/TerminalSettings.swift:16-24 | construction does not change any colour of the input |
| Terminal.FreshSettings | iTermColorSchemeConverter/TerminalSettings.swift:9-24 | settings built with no dictionary have version 2.04, type "Window Settings", 90 columns, 50 rows, the name, and no colour |
| Terminal.TerminalSettings.constructor | iTermColorSchemeConverter/TerminalSettings.swift:16-24 | the dictionary is the input (empty when nil) named, with the four defaults set where missing |
| Terminal.TerminalSettings.SetName | iTermColorSchemeConverter/TerminalSettings.swift:30-33 | stores the name under "name", which then reads back |
| Terminal.TerminalSettings.SetWindowColumns | iTermColorSchemeConverter/TerminalSettings.swift:35-38 | stores the count under "columnCount", which then reads back |
| Terminal.TerminalSettings.SetWindowRows | iTermColorSchemeConverter/TerminalSettings.swift:40-43 | stores the count under "rowCount", which then reads back |
| Terminal.TerminalSettings.SetFont | iTermColorSchemeConverter/TerminalSettings.swift:45-58 | archives the font under "Font" or removes the key on nil; the font then reads back |
| Terminal.TerminalSettings.SetColorAt | iTermColorSchemeConverter/TerminalSettings.swift:69-77 | the subscript setter updates the dictionary as `WithColorAt` |
| Terminal.TerminalSettings.SetDefaultIfMissing | iTermColorSchemeConverter/TerminalSettings.swift:80-85 | stores the value only when the key is absent |
| Converter.Scheme.SetName | iTermColorSchemeConverter/ColorScheme.swift:38 | the name of either kind of scheme reads back what was set |
| Converter.Scheme.SetColorAt | iTermColorSchemeConverter/ColorScheme.swift:43-45 | in either format, setting c leaves c's entry encoding the value (absent for nil), every other entry and the name unchanged |
| Converter.Scheme.ReadEncodedEntry | iTermColorSchemeConverter/ColorScheme.swift:43-45 | in either format the getter reads back what the setter wrote, or nil for no entry |
| Converter.Scheme.CopyTo | iTermColorSchemeConverter/main.swift:17-41 | after copying, each of the 21 colours of the target holds the source's earlier colour (key removed when nil); only colour keys of the target change; its name is kept; a distinct source is unchanged |
| Converter.Scheme.CopiedStep | iTermColorSchemeConverter/main.swift:18-40 | each assignment extends the copied prefix without disturbing earlier colours or other keys |
| Converter.Scheme.UncopiedColorsStay | iTermColorSchemeConverter/main.swift:18-40 | an assignment does not change the source colours still to be copied, even when source and target are one object |
| Converter.Scheme.CopiedAll | iTermColorSchemeConverter/main.swift:18-40 | once all 21 assignments are done every target colour reads the copied value |
| Converter.Load | iTermColorSchemeConverter/main.swift:9-15 | loading yields nil exactly when the file could not be read, otherwise a constructed scheme with the given name |
| Converter.ConvertToTerminalScheme | iTermColorSchemeConverter/main.swift:56-69 | nothing is saved when loading fails; otherwise the saved settings read every colour as the loaded scheme does, with the name, 90 x 50 window and profile defaults, and no other keys; all 21 colour keys are present exactly when the input's colour entries are well formed |
| Converter.ConvertedColorsPresent | iTermColorSchemeConverter/main.swift:57-68 | the saved settings hold all 21 colour keys exactly when the iTerm2 input's colour entries that are dictionaries are well formed |
| Converter.ConvertedSettings | iTermColorSchemeConverter/main.swift:62-68 | fresh settings with all colours copied from an iTerm2 dictionary read those colours and hold only defaults besides |

## Left out

- File input and output: reading a property list from a path (`NSDictionary(contentsOfFile:)`) is a parameter holding the parsed dictionary or nil; `TerminalSettings.saveToFile`, inside `convertToTerminalScheme`, is modelled as returning the dictionary that would be written; `ITermColorScheme.saveToFile` is not modelled, since the converter never calls it.
- The keyed archiver's byte format: an archive is an abstract datatype holding the archived object, and data that is not a keyed archive reads as no object. `NSKeyedUnarchiver` raises an exception on such data; the model reads it as nil.
- Floating point: colour components and the profile version are exact reals; `CGFloat` rounding, colour-space conversion of `redComponent` and friends, and the difference between the double 2.04 and the real 2.04 are not modelled.
- Integer width: Swift's 64-bit `Int` is an unbounded integer, so an out-of-range number under "columnCount" or "rowCount" is not modelled.
- Property-list dates and the mutability class of nested dictionaries: a nested colour dictionary counts as `NSMutableDictionary` whenever it is a dictionary.
- The command-line loop over `Process.arguments`, the usage message and the warnings printed, `String.fullPath` and the derivation of scheme names and output paths from file paths: the names are parameters.
- The `ColorScheme` protocol is modelled as a sum of the two conforming classes (`Converter.Scheme`) rather than as an open interface.
