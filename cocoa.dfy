/**
 * The parts of Foundation and AppKit that the colour-scheme adapters rely on:
 * property-list values (the contents of an NSDictionary), the colour and font
 * objects of AppKit, the keyed archiver that turns an object into NSData, and
 * Swift 2's `as?` casts from a dictionary entry to a concrete type.
 */
module Cocoa {
  import opened Wrappers

  /** An AppKit colour seen through its device-RGB components. */
  datatype NSColor = NSColor(red: real, green: real, blue: real, alpha: real)

  /** An AppKit font; only whether one is present matters to the adapters. */
  datatype NSFont = NSFont(fontName: string, pointSize: real)

  /** The root object of a keyed archive. */
  datatype ArchivedObject = ArchivedColor(color: NSColor) | ArchivedFont(font: NSFont)

  /**
   * A data blob: either the archive of an object or bytes that are not a keyed
   * archive. The byte layout of an archive is abstracted away.
   */
  datatype NSData = KeyedArchive(root: ArchivedObject) | RawBytes(bytes: seq<bv8>)

  /** NSKeyedArchiver.archivedDataWithRootObject */
  function ArchivedDataWithRootObject(obj: ArchivedObject): NSData {
    KeyedArchive(obj)
  }

  /** NSKeyedUnarchiver.unarchiveObjectWithData */
  function UnarchiveObjectWithData(data: NSData): (r: Option<ArchivedObject>)
    ensures r.Some? <==> data.KeyedArchive?
  {
    match data
    case KeyedArchive(root) => Some(root)
    case RawBytes(_) => None
  }

  /** Unarchiving what was archived gives back the same object. */
  lemma UnarchiveArchived(obj: ArchivedObject)
    ensures UnarchiveObjectWithData(ArchivedDataWithRootObject(obj)) == Some(obj)
  {
  }

  /** A property-list value, as found in a parsed .plist document. */
  datatype PlistValue =
    | PString(s: string)
    | PInteger(i: int)
    | PReal(r: real)
    | PBool(b: bool)
    | PData(data: NSData)
    | PArray(items: seq<PlistValue>)
    | PDict(entries: map<string, PlistValue>)

  /** The contents of an NSDictionary / NSMutableDictionary with string keys. */
  type PlistDict = map<string, PlistValue>

  /** Whether a value is an NSNumber: an integer, a real or a boolean. */
  predicate IsNumber(v: PlistValue) {
    v.PInteger? || v.PReal? || v.PBool?
  }

  /** `dict[key]`: the entry under `key`, or nil. */
  function Lookup(d: PlistDict, key: string): Option<PlistValue> {
    if key in d then Some(d[key]) else None
  }

  /** `dict[key] = value` with an optional value: nil removes the key. */
  function Store(d: PlistDict, key: string, value: Option<PlistValue>): (r: PlistDict)
    ensures Lookup(r, key) == value
    ensures forall k :: k != key ==> Lookup(r, k) == Lookup(d, k)
  {
    match value
    case Some(v) => d[key := v]
    case None => d - {key}
  }

  /** The character at position `i` of a key name, or a space past its end. */
  function CharAt(s: string, i: nat): char {
    if i < |s| then s[i] else ' '
  }

  /** Rounds toward zero, as NSNumber's integerValue does with a floating-point number. */
  function TruncateTowardZero(r: real): (n: int)
    ensures 0.0 <= r ==> n as real <= r < n as real + 1.0
    ensures r < 0.0 ==> n as real - 1.0 < r <= n as real
  {
    if 0.0 <= r then r.Floor else -((-r).Floor)
  }

  /** `x as? String` */
  function AsString(x: Option<PlistValue>): Option<string> {
    if x.Some? && x.value.PString? then Some(x.value.s) else None
  }

  /**
   * `x as? Int` under Swift 2 bridging: every NSNumber (integer, real or
   * boolean) converts, a real one by truncation.
   */
  function AsInt(x: Option<PlistValue>): (r: Option<int>)
    ensures r.Some? <==> x.Some? && IsNumber(x.value)
  {
    match x
    case Some(PInteger(i)) => Some(i)
    case Some(PReal(r)) => Some(TruncateTowardZero(r))
    case Some(PBool(b)) => Some(if b then 1 else 0)
    case _ => None
  }

  /** `x as? CGFloat` under Swift 2 bridging: every NSNumber converts. */
  function AsCGFloat(x: Option<PlistValue>): (r: Option<real>)
    ensures r.Some? <==> x.Some? && IsNumber(x.value)
  {
    match x
    case Some(PInteger(i)) => Some(i as real)
    case Some(PReal(r)) => Some(r)
    case Some(PBool(b)) => Some(if b then 1.0 else 0.0)
    case _ => None
  }

  /** `x as? NSData` */
  function AsData(x: Option<PlistValue>): Option<NSData> {
    if x.Some? && x.value.PData? then Some(x.value.data) else None
  }

  /** `x as? NSMutableDictionary`: any dictionary entry of a parsed property list. */
  function AsDictionary(x: Option<PlistValue>): Option<PlistDict> {
    if x.Some? && x.value.PDict? then Some(x.value.entries) else None
  }

  /** `obj as? NSColor` on an unarchived object. */
  function AsColor(obj: Option<ArchivedObject>): Option<NSColor> {
    if obj.Some? && obj.value.ArchivedColor? then Some(obj.value.color) else None
  }

  /** `obj as? NSFont` on an unarchived object. */
  function AsFont(obj: Option<ArchivedObject>): Option<NSFont> {
    if obj.Some? && obj.value.ArchivedFont? then Some(obj.value.font) else None
  }
}
