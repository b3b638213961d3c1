/**
 * The Redumper execution context: the parameter string of a redumper run
 * read into a presence map and typed value fields, written back out from
 * them, filled with defaults for a disc, and reset.
 */
module Redumper {
  import opened Wrappers
  import opened Strings
  import opened Numeric
  import opened Tokenizer
  import opened Data
  import opened FlagStrings
  import CommandStrings
  import opened Settings
  import Paths

  /** The media types the defaulting step distinguishes; every other type is `OtherMediaType`. */
  datatype MediaType = CDROM | DVD | HDDVD | BluRay | OtherMediaType

  /** The systems the defaulting step distinguishes; every other system is `OtherSystem`. */
  datatype RedumpSystem = SuperAudioCD | OtherSystem

  /** The image name parsing falls back to when none was given. */
  const DefaultImageName: string := "track"

  /** The typed values of the flags that carry one, one component per `...Value` property of the context. */
  datatype Values = Values(
    drive: Option<string>, speed: Option<int32>, retries: Option<int32>,
    imagePath: Option<string>, imageName: Option<string>,
    driveType: Option<string>, driveReadOffset: Option<int32>, driveC2Shift: Option<int32>,
    drivePregapStart: Option<int32>, driveReadMethod: Option<string>, driveSectorOrder: Option<string>,
    forceOffset: Option<int32>, audioSilenceThreshold: Option<int32>,
    skipFill: Option<uint8>,
    lbaStart: Option<int32>, lbaEnd: Option<int32>, skip: Option<string>,
    dumpWriteOffset: Option<int32>, dumpReadSize: Option<int32>, plextorLeadinRetries: Option<int32>)

  /** The value fields of a fresh context: all unset. */
  const NoValues: Values := Values(None, None, None, None, None, None, None, None, None, None,
                                   None, None, None, None, None, None, None, None, None, None)

  /** An integer field parsing may touch: kept, or given a value that is not the `int.MinValue` sentinel. */
  predicate IntKept(a: Option<int32>, b: Option<int32>) {
    b == a || (b.Some? && b.value != Int32MinValue)
  }

  /** A text field parsing may touch: kept, or given a non-empty text. */
  predicate TextKept(a: Option<string>, b: Option<string>) {
    b == a || (b.Some? && b.value != [])
  }

  /** A path field parsing may touch: kept, or given a text in exactly one pair of quotes. */
  predicate QuotedKept(a: Option<string>, b: Option<string>) {
    b == a || (b.Some? && QuotedOnce(b.value))
  }

  /** The skip-fill byte: kept, or given a value other than the `byte.MinValue` sentinel 0. */
  predicate FillKept(a: Option<uint8>, b: Option<uint8>) {
    b == a || (b.Some? && b.value != 0)
  }

  /** How parsing may move the value fields from a to b: sentinels and empty texts are never stored. */
  predicate Evolves(a: Values, b: Values) {
    && TextKept(a.drive, b.drive) && IntKept(a.speed, b.speed) && IntKept(a.retries, b.retries)
    && QuotedKept(a.imagePath, b.imagePath)
    && (QuotedKept(a.imageName, b.imageName) || b.imageName == Some(DefaultImageName))
    && TextKept(a.driveType, b.driveType) && IntKept(a.driveReadOffset, b.driveReadOffset)
    && IntKept(a.driveC2Shift, b.driveC2Shift) && IntKept(a.drivePregapStart, b.drivePregapStart)
    && TextKept(a.driveReadMethod, b.driveReadMethod) && TextKept(a.driveSectorOrder, b.driveSectorOrder)
    && IntKept(a.forceOffset, b.forceOffset) && IntKept(a.audioSilenceThreshold, b.audioSilenceThreshold)
    && FillKept(a.skipFill, b.skipFill)
    && IntKept(a.lbaStart, b.lbaStart) && IntKept(a.lbaEnd, b.lbaEnd) && TextKept(a.skip, b.skip)
    && IntKept(a.dumpWriteOffset, b.dumpWriteOffset) && IntKept(a.dumpReadSize, b.dumpReadSize)
    && IntKept(a.plextorLeadinRetries, b.plextorLeadinRetries)
  }

  /** The presence map moved from m0 to m1 only by marking keys of `keys` as present: nothing is removed or cleared. */
  predicate MarksOnly(m0: map<string, bool>, m1: map<string, bool>, keys: set<string>) {
    && (forall k | k in m0 :: k in m1)
    && (forall k | k in m1 :: (k in m0 && m1[k] == m0[k]) || (k in keys && m1[k]))
  }

  /** A presence map that only parsing has touched holds `--auto-eject` exactly as before. */
  lemma AutoEjectOneWay(m0: map<string, bool>, m1: map<string, bool>)
    requires MarksOnly(m0, m1, Parsed)
    ensures AutoEject in m1 <==> AutoEject in m0
    ensures AutoEject in m1 ==> m1[AutoEject] == m0[AutoEject]
  {
    AutoEjectIsNotParsed();
  }

  /** A token no reader for `keys` responds to: it holds no `=`, spells none of them, and is not `-h`. */
  predicate Foreign(t: string, keys: set<string>) {
    '=' !in t && t !in keys && t != HelpShort
  }

  /** The text before the first `=` of a token: the flag a `flag=value` token names. */
  function FlagOf(token: string): (r: string)
    ensures '=' !in r
    decreases |token|
  {
    if token == [] || token[0] == '=' then [] else [token[0]] + FlagOf(token[1..])
  }

  /** In `flag=t` with no `=` in the flag, the text before the first `=` is the flag. */
  lemma {:induction false} FlagOfSpelled(flag: string, t: string)
    requires '=' !in flag
    ensures FlagOf(flag + "=" + t) == flag
    decreases |flag|
  {
    if flag == [] {
      assert (flag + "=" + t)[0] == '=';
    } else {
      assert (flag + "=" + t)[1..] == flag[1..] + "=" + t;
      FlagOfSpelled(flag[1..], t);
      assert [flag[0]] + flag[1..] == flag;
    }
  }

  /** The text after `flag=` in a single token; none when a second `=` follows (the split gives more than two parts). */
  function AssignedValue(token: string, flag: string): (r: Option<string>)
    requires StartsWith(token, flag + "=")
    ensures r.Some? ==> '=' !in r.value && token == flag + "=" + r.value
  {
    var rest := token[|flag| + 1..];
    assert token == token[..|flag| + 1] + rest;
    if '=' in rest then None else Some(rest)
  }

  /** The token read as the `flag=value` form of `flag`: the value, or none when the token is not that form. */
  function Assignment(token: string, flag: string): (r: Option<string>)
    ensures r.Some? ==> token == flag + "=" + r.value && '=' !in r.value && '=' in token
    ensures r.Some? && '=' !in flag ==> FlagOf(token) == flag
  {
    if StartsWith(token, flag + "=") then
      assert token[|flag|] == (flag + "=")[|flag|];
      var r := AssignedValue(token, flag);
      if r.Some? && '=' !in flag then FlagOfSpelled(flag, r.value); r else r
    else None
  }

  /** Conversely, `flag=value` with no second `=` is read as the `flag=value` form of `flag`. */
  lemma AssignmentOfSpelled(flag: string, t: string)
    requires '=' !in t
    ensures Assignment(flag + "=" + t, flag) == Some(t)
  {
    var token := flag + "=" + t;
    assert token[..|flag| + 1] == flag + "=";
    assert token[|flag| + 1..] == t;
  }

  /** With no `=` in the spellings, a token is the `flag=value` form of at most one flag. */
  lemma AssignmentNamesOneFlag(token: string, x: string, y: string)
    requires '=' !in x && '=' !in y
    requires Assignment(token, x).Some? && Assignment(token, y).Some?
    ensures x == y
  {
    AssignmentSplitsOnce(x, Assignment(token, x).value, y, Assignment(token, y).value);
  }

  /** The number a 32-bit value token spells, or the `int.MinValue` sentinel when it does not parse. */
  function ParsedInt32(t: string): (n: int32)
    ensures TryParse(t, Int32).Some? ==> n as int == TryParse(t, Int32).value
    ensures TryParse(t, Int32).None? ==> n == Int32MinValue
  {
    var p := TryParse(t, Int32);
    if p.Some? then p.value as int32 else Int32MinValue
  }

  /** The number a byte value token spells, or the `byte.MinValue` sentinel 0 when it does not parse. */
  function ParsedUInt8(t: string): (n: uint8)
    ensures TryParse(t, Byte).Some? ==> n as int == TryParse(t, Byte).value
    ensures TryParse(t, Byte).None? ==> n == 0
  {
    var p := TryParse(t, Byte);
    if p.Some? then p.value as uint8 else 0
  }

  /** What `flag=t` leaves in a 32-bit field: the number t spells, unless it does not parse or is `int.MinValue`. */
  function StoredInt(current: Option<int32>, t: string): Option<int32> {
    if ParsedInt32(t) != Int32MinValue then Some(ParsedInt32(t)) else current
  }

  /** What `flag=t` leaves in a text field: t without its surrounding quotes, unless that is empty. */
  function StoredText(current: Option<string>, t: string): Option<string> {
    if TrimChar(t, '"') != [] then Some(TrimChar(t, '"')) else current
  }

  /** What `flag=t` leaves in a path field: t without its surrounding quotes, wrapped in one pair, unless that is empty. */
  function StoredQuoted(current: Option<string>, t: string): Option<string> {
    if TrimChar(t, '"') != [] then Some(Quote(TrimChar(t, '"'))) else current
  }

  /** What `flag=t` leaves in the skip-fill byte: the byte t spells, unless it does not parse or is 0. */
  function StoredFill(current: Option<uint8>, t: string): Option<uint8> {
    if ParsedUInt8(t) != 0 then Some(ParsedUInt8(t)) else current
  }

  /** The 32-bit field a flag owns (none for a flag that owns no such field). */
  function IntOf(v: Values, flag: string): Option<int32> {
    if flag == Speed then v.speed
    else if flag == Retries then v.retries
    else if flag == DriveReadOffset then v.driveReadOffset
    else if flag == DriveC2Shift then v.driveC2Shift
    else if flag == DrivePregapStart then v.drivePregapStart
    else if flag == PlextorLeadinRetries then v.plextorLeadinRetries
    else if flag == ForceOffset then v.forceOffset
    else if flag == AudioSilenceThreshold then v.audioSilenceThreshold
    else if flag == LBAStart then v.lbaStart
    else if flag == LBAEnd then v.lbaEnd
    else if flag == DumpWriteOffset then v.dumpWriteOffset
    else if flag == DumpReadSize then v.dumpReadSize
    else None
  }

  /** The value fields with the 32-bit field `flag` owns set to `o`. */
  function WithInt(v: Values, flag: string, o: Option<int32>): Values {
    if flag == Speed then v.(speed := o)
    else if flag == Retries then v.(retries := o)
    else if flag == DriveReadOffset then v.(driveReadOffset := o)
    else if flag == DriveC2Shift then v.(driveC2Shift := o)
    else if flag == DrivePregapStart then v.(drivePregapStart := o)
    else if flag == PlextorLeadinRetries then v.(plextorLeadinRetries := o)
    else if flag == ForceOffset then v.(forceOffset := o)
    else if flag == AudioSilenceThreshold then v.(audioSilenceThreshold := o)
    else if flag == LBAStart then v.(lbaStart := o)
    else if flag == LBAEnd then v.(lbaEnd := o)
    else if flag == DumpWriteOffset then v.(dumpWriteOffset := o)
    else if flag == DumpReadSize then v.(dumpReadSize := o)
    else v
  }

  /** The text field a flag owns (none for a flag that owns no such field). */
  function TextOf(v: Values, flag: string): Option<string> {
    if flag == Drive then v.drive
    else if flag == ImagePath then v.imagePath
    else if flag == ImageName then v.imageName
    else if flag == DriveType then v.driveType
    else if flag == DriveReadMethod then v.driveReadMethod
    else if flag == DriveSectorOrder then v.driveSectorOrder
    else if flag == FlagStrings.Skip then v.skip
    else None
  }

  /** The value fields with the text field `flag` owns set to `o`. */
  function WithText(v: Values, flag: string, o: Option<string>): Values {
    if flag == Drive then v.(drive := o)
    else if flag == ImagePath then v.(imagePath := o)
    else if flag == ImageName then v.(imageName := o)
    else if flag == DriveType then v.(driveType := o)
    else if flag == DriveReadMethod then v.(driveReadMethod := o)
    else if flag == DriveSectorOrder then v.(driveSectorOrder := o)
    else if flag == FlagStrings.Skip then v.(skip := o)
    else v
  }

  /** A 32-bit field set to `o` then holds `o`; set to what it holds, nothing changes; set as a reader may, the fields still evolve. */
  lemma WithIntKeeps(v: Values, flag: string, o: Option<int32>)
    requires flag in Int32Valued
    ensures IntOf(WithInt(v, flag, o), flag) == o
    ensures WithInt(v, flag, IntOf(v, flag)) == v
    ensures WithInt(WithInt(v, flag, o), flag, o) == WithInt(v, flag, o)
    ensures IntKept(IntOf(v, flag), o) ==> Evolves(v, WithInt(v, flag, o))
    ensures WithInt(v, flag, o).imageName == v.imageName
  {
    if flag == Speed {
    } else if flag == Retries {
    } else if flag == DriveReadOffset {
    } else if flag == DriveC2Shift {
    } else if flag == DrivePregapStart {
    } else if flag == PlextorLeadinRetries {
    } else if flag == ForceOffset {
    } else if flag == AudioSilenceThreshold {
    } else if flag == LBAStart {
    } else if flag == LBAEnd {
    } else if flag == DumpWriteOffset {
    } else if flag == DumpReadSize {
    }
  }

  /** The same for a plain text field. */
  lemma WithTextKeeps(v: Values, flag: string, o: Option<string>)
    requires flag in PlainTextValued
    ensures TextOf(WithText(v, flag, o), flag) == o
    ensures WithText(v, flag, TextOf(v, flag)) == v
    ensures WithText(WithText(v, flag, o), flag, o) == WithText(v, flag, o)
    ensures TextKept(TextOf(v, flag), o) ==> Evolves(v, WithText(v, flag, o))
    ensures WithText(v, flag, o).imageName == v.imageName
  {
    if flag == Drive {
    } else if flag == DriveType {
    } else if flag == DriveReadMethod {
    } else if flag == DriveSectorOrder {
    } else if flag == FlagStrings.Skip {
    }
  }

  /** The same for a path field, which may be the image name itself. */
  lemma WithPathKeeps(v: Values, flag: string, o: Option<string>)
    requires flag in PathValued
    ensures TextOf(WithText(v, flag, o), flag) == o
    ensures WithText(v, flag, TextOf(v, flag)) == v
    ensures WithText(WithText(v, flag, o), flag, o) == WithText(v, flag, o)
    ensures QuotedKept(TextOf(v, flag), o) ==>
              Evolves(v, WithText(v, flag, o)) && QuotedKept(v.imageName, WithText(v, flag, o).imageName)
  {
    if flag == ImagePath {
    } else if flag == ImageName {
    }
  }

  /**
   * The value fields after `flag` reads the value text `t`: the field the
   * flag owns takes what its reader keeps, and every other field stays.
   */
  function Store(v: Values, flag: string, t: string): Values {
    if flag in Int32Valued then WithInt(v, flag, StoredInt(IntOf(v, flag), t))
    else if flag in PathValued then WithText(v, flag, StoredQuoted(TextOf(v, flag), t))
    else if flag in PlainTextValued then WithText(v, flag, StoredText(TextOf(v, flag), t))
    else if flag == SkipFill then v.(skipFill := StoredFill(v.skipFill, t))
    else v
  }

  /**
   * Whether the flag's reader takes `t` as its separate value token: any
   * (non-empty) text for a text flag, a number that parses for the others.
   */
  predicate ValueReads(flag: string, t: string) {
    if flag in Int32Valued then TryParse(t, Int32).Some?
    else if flag == SkipFill then TryParse(t, Byte).Some?
    else true
  }

  /** Storing a value read by a flag keeps the fields evolving as parsing allows. */
  lemma StoreKeeps(v: Values, flag: string, t: string)
    requires flag in Valued
    ensures Evolves(v, Store(v, flag, t)) && QuotedKept(v.imageName, Store(v, flag, t).imageName)
  {
    ValuedKind(flag);
    if flag in Int32Valued {
      Int32Spelling(flag);
      WithIntKeeps(v, flag, StoredInt(IntOf(v, flag), t));
    } else if flag in PathValued {
      PathSpelling(flag);
      QuoteTrimmed(t);
      WithPathKeeps(v, flag, StoredQuoted(TextOf(v, flag), t));
    } else if flag in PlainTextValued {
      PlainTextSpelling(flag);
      WithTextKeeps(v, flag, StoredText(TextOf(v, flag), t));
    } else {
      FillSpelling();
    }
  }

  /** Storing the same value twice for the same flag stores it once. */
  lemma StoreTwice(v: Values, flag: string, t: string)
    requires flag in Valued
    ensures Store(Store(v, flag, t), flag, t) == Store(v, flag, t)
  {
    ValuedKind(flag);
    if flag in Int32Valued {
      Int32Spelling(flag);
      WithIntKeeps(v, flag, StoredInt(IntOf(v, flag), t));
    } else if flag in PathValued {
      PathSpelling(flag);
      WithPathKeeps(v, flag, StoredQuoted(TextOf(v, flag), t));
    } else if flag in PlainTextValued {
      PlainTextSpelling(flag);
      WithTextKeeps(v, flag, StoredText(TextOf(v, flag), t));
    } else {
      FillSpelling();
    }
  }

  /** `this[key] == true` in a presence map. */
  predicate Marked(m: map<string, bool>, key: string) {
    key in m && m[key]
  }

  /**
   * What a flag reader returns: the value it read (if any), the cursor after
   * it, and whether it marks its flag present in the presence map.
   */
  datatype Read<T> = Read(value: Option<T>, next: int, marks: bool)

  /**
   * A flag without a value: the token is its long or short spelling, which
   * marks the long spelling present. The cursor does not move.
   */
  method ProcessFlagParameter(parts: seq<string>, shortName: Option<string>, longName: string, i: int) returns (marks: bool)
    requires 0 <= i < |parts|
    ensures marks <==> parts[i] == longName || (shortName.Some? && parts[i] == shortName.value)
  {
    marks := parts[i] == longName || (shortName.Some? && parts[i] == shortName.value);
  }

  /**
   * A flag with a text value, as `flag value` or `flag=value`. The value
   * comes back with its surrounding quotes removed; the cursor moves onto a
   * separate value token. Any other token is left alone.
   */
  method ProcessStringParameter(parts: seq<string>, longName: string, i: int) returns (r: Read<string>)
    requires 0 <= i < |parts|
    ensures r.next == i || r.next == i + 1
    ensures r.next < |parts|
    ensures r.value.Some? <==> r.marks
    ensures parts[i] == longName ==>
              r == if DoesExist(parts, i + 1) then Read(Some(TrimChar(parts[i + 1], '"')), i + 1, true)
                   else Read(None, i, false)
    ensures parts[i] != longName ==>
              r == if Assignment(parts[i], longName).Some? then Read(Some(TrimChar(Assignment(parts[i], longName).value, '"')), i, true)
                   else Read(None, i, false)
  {
    r := Read(None, i, false);
    if parts[i] == longName {
      if DoesExist(parts, i + 1) {
        r := Read(Some(TrimChar(parts[i + 1], '"')), i + 1, true);
      }
    } else if StartsWith(parts[i], longName + "=") {
      var v := AssignedValue(parts[i], longName);
      if v.Some? {
        r := Read(Some(TrimChar(v.value, '"')), i, true);
      }
    }
  }

  /**
   * A flag with a 32-bit value, as `flag value` or `flag=value`. A value that
   * does not parse comes back as the `int.MinValue` sentinel; a separate one
   * then neither marks the flag nor moves the cursor.
   */
  method ProcessInt32Parameter(parts: seq<string>, longName: string, i: int) returns (r: Read<int32>)
    requires 0 <= i < |parts|
    ensures r.next == i || r.next == i + 1
    ensures r.next < |parts|
    ensures parts[i] == longName ==>
              r == if !DoesExist(parts, i + 1) then Read(None, i, false)
                   else if TryParse(parts[i + 1], Int32).Some? then Read(Some(ParsedInt32(parts[i + 1])), i + 1, true)
                   else Read(Some(Int32MinValue), i, false)
    ensures parts[i] != longName ==>
              r == if Assignment(parts[i], longName).Some? then Read(Some(ParsedInt32(Assignment(parts[i], longName).value)), i, true)
                   else Read(None, i, false)
  {
    r := Read(None, i, false);
    if parts[i] == longName {
      if DoesExist(parts, i + 1) {
        var n := TryParse(parts[i + 1], Int32);
        r := if n.Some? then Read(Some(n.value as int32), i + 1, true) else Read(Some(Int32MinValue), i, false);
      }
    } else if StartsWith(parts[i], longName + "=") {
      var v := AssignedValue(parts[i], longName);
      if v.Some? {
        var n := TryParse(v.value, Int32);
        r := Read(if n.Some? then Some(n.value as int32) else Some(Int32MinValue), i, true);
      }
    }
  }

  /**
   * A flag with a byte value, as `flag value` or `flag=value`. A value that
   * does not parse comes back as the `byte.MinValue` sentinel 0; a separate
   * one then neither marks the flag nor moves the cursor.
   */
  method ProcessUInt8Parameter(parts: seq<string>, longName: string, i: int) returns (r: Read<uint8>)
    requires 0 <= i < |parts|
    ensures r.next == i || r.next == i + 1
    ensures r.next < |parts|
    ensures parts[i] == longName ==>
              r == if !DoesExist(parts, i + 1) then Read(None, i, false)
                   else if TryParse(parts[i + 1], Byte).Some? then Read(Some(ParsedUInt8(parts[i + 1])), i + 1, true)
                   else Read(Some(0), i, false)
    ensures parts[i] != longName ==>
              r == if Assignment(parts[i], longName).Some? then Read(Some(ParsedUInt8(Assignment(parts[i], longName).value)), i, true)
                   else Read(None, i, false)
  {
    r := Read(None, i, false);
    if parts[i] == longName {
      if DoesExist(parts, i + 1) {
        var n := TryParse(parts[i + 1], Byte);
        r := if n.Some? then Read(Some(n.value as uint8), i + 1, true) else Read(Some(0), i, false);
      }
    } else if StartsWith(parts[i], longName + "=") {
      var v := AssignedValue(parts[i], longName);
      if v.Some? {
        var n := TryParse(v.value, Byte);
        r := Read(if n.Some? then Some(n.value as uint8) else Some(0), i, true);
      }
    }
  }

  /** The presence map after a reader: its flag marked when the reader says so, every other entry as it was. */
  method Mark(m: map<string, bool>, key: string, on: bool) returns (r: map<string, bool>)
    ensures MarksOnly(m, r, {key})
    ensures on ==> r == m[key := true]
    ensures !on ==> r == m
  {
    r := if on then m[key := true] else m;
  }

  /** An integer field after its reader: the value read, unless it is missing or `int.MinValue`. */
  method KeepInt(current: Option<int32>, read: Option<int32>) returns (r: Option<int32>)
    ensures IntKept(current, r)
    ensures read.Some? && read.value != Int32MinValue ==> r == read
    ensures read.None? || read.value == Int32MinValue ==> r == current
  {
    r := if read.Some? && read.value != Int32MinValue then read else current;
  }

  /** A text field after its reader: the text read, unless it is missing or empty. */
  method KeepText(current: Option<string>, read: Option<string>) returns (r: Option<string>)
    ensures TextKept(current, r)
    ensures read.Some? && read.value != [] ==> r == read
    ensures read.None? || read.value == [] ==> r == current
  {
    r := if read.Some? && read.value != [] then read else current;
  }

  /** A path field after its reader: the text read, stripped of quotes and wrapped in one pair, unless it is missing or empty. */
  method KeepQuoted(current: Option<string>, read: Option<string>) returns (r: Option<string>)
    ensures QuotedKept(current, r)
    ensures read.Some? && read.value != [] ==> r == Some(Quote(TrimChar(read.value, '"')))
    ensures read.None? || read.value == [] ==> r == current
  {
    r := current;
    if read.Some? && read.value != [] {
      QuoteTrimmed(read.value);
      r := Some(Quote(TrimChar(read.value, '"')));
    }
  }

  /** The skip-fill byte after its reader: the byte read, unless it is missing or 0. */
  method KeepFill(current: Option<uint8>, read: Option<uint8>) returns (r: Option<uint8>)
    ensures FillKept(current, r)
    ensures read.Some? && read.value != 0 ==> r == read
    ensures read.None? || read.value == 0 ==> r == current
  {
    r := if read.Some? && read.value != 0 then read else current;
  }

  /** The length of the leading run of mode words. */
  function ModeRunLength(parts: seq<string>): (n: nat)
    ensures n <= |parts|
    ensures forall j | 0 <= j < n :: CommandStrings.IsMode(parts[j])
    ensures n < |parts| ==> !CommandStrings.IsMode(parts[n])
  {
    if |parts| > 0 && CommandStrings.IsMode(parts[0]) then 1 + ModeRunLength(parts[1..]) else 0
  }

  // ------------------------------------------------- one flag's block
  //
  // Each block of the sweep runs one reader on the token at the cursor,
  // marks the flag when the reader says so, and stores the value it read
  // under the field's guard.

  /** A text flag's block: a value that is missing or empty is not stored. */
  method StepText(parts: seq<string>, i: int, key: string, f: map<string, bool>, current: Option<string>)
    returns (next: int, f1: map<string, bool>, stored: Option<string>)
    requires 0 <= i < |parts|
    ensures Assignment(parts[i], key).Some? ==>
              next == i && f1 == f[key := true] && stored == StoredText(current, Assignment(parts[i], key).value)
    ensures parts[i] == key && DoesExist(parts, i + 1) ==>
              next == i + 1 && f1 == f[key := true] && stored == StoredText(current, parts[i + 1])
    ensures Assignment(parts[i], key).None? && !(parts[i] == key && DoesExist(parts, i + 1)) ==>
              next == i && f1 == f && stored == current
  {
    var text := ProcessStringParameter(parts, key, i);
    f1 := Mark(f, key, text.marks);
    next := text.next;
    stored := KeepText(current, text.value);
  }

  /** A path flag's block: a value that is missing or empty is not stored; any other is stored in one pair of quotes. */
  method StepQuoted(parts: seq<string>, i: int, key: string, f: map<string, bool>, current: Option<string>)
    returns (next: int, f1: map<string, bool>, stored: Option<string>)
    requires 0 <= i < |parts|
    ensures Assignment(parts[i], key).Some? ==>
              next == i && f1 == f[key := true] && stored == StoredQuoted(current, Assignment(parts[i], key).value)
    ensures parts[i] == key && DoesExist(parts, i + 1) ==>
              next == i + 1 && f1 == f[key := true] && stored == StoredQuoted(current, parts[i + 1])
    ensures Assignment(parts[i], key).None? && !(parts[i] == key && DoesExist(parts, i + 1)) ==>
              next == i && f1 == f && stored == current
  {
    var text := ProcessStringParameter(parts, key, i);
    f1 := Mark(f, key, text.marks);
    next := text.next;
    stored := KeepQuoted(current, text.value);
    if text.value.Some? {
      TrimCharIdempotent(if parts[i] == key then parts[i + 1] else Assignment(parts[i], key).value, '"');
    }
  }

  /**
   * A 32-bit flag's block: a value that is missing or `int.MinValue` is not
   * stored. A separate value token that does not parse is not consumed and
   * leaves the flag unmarked.
   */
  method StepInt32(parts: seq<string>, i: int, key: string, f: map<string, bool>, current: Option<int32>)
    returns (next: int, f1: map<string, bool>, stored: Option<int32>)
    requires 0 <= i < |parts|
    ensures Assignment(parts[i], key).Some? ==>
              next == i && f1 == f[key := true] && stored == StoredInt(current, Assignment(parts[i], key).value)
    ensures parts[i] == key && DoesExist(parts, i + 1) && TryParse(parts[i + 1], Int32).Some? ==>
              next == i + 1 && f1 == f[key := true] && stored == StoredInt(current, parts[i + 1])
    ensures Assignment(parts[i], key).None? && !(parts[i] == key && DoesExist(parts, i + 1) && TryParse(parts[i + 1], Int32).Some?) ==>
              next == i && f1 == f && stored == current
  {
    var number := ProcessInt32Parameter(parts, key, i);
    f1 := Mark(f, key, number.marks);
    next := number.next;
    stored := KeepInt(current, number.value);
  }

  /**
   * The skip-fill block: a value that is missing or 0 is not stored. A
   * separate value token that does not parse is not consumed and leaves the
   * flag unmarked.
   */
  method StepFill(parts: seq<string>, i: int, key: string, f: map<string, bool>, current: Option<uint8>)
    returns (next: int, f1: map<string, bool>, stored: Option<uint8>)
    requires 0 <= i < |parts|
    ensures Assignment(parts[i], key).Some? ==>
              next == i && f1 == f[key := true] && stored == StoredFill(current, Assignment(parts[i], key).value)
    ensures parts[i] == key && DoesExist(parts, i + 1) && TryParse(parts[i + 1], Byte).Some? ==>
              next == i + 1 && f1 == f[key := true] && stored == StoredFill(current, parts[i + 1])
    ensures Assignment(parts[i], key).None? && !(parts[i] == key && DoesExist(parts, i + 1) && TryParse(parts[i + 1], Byte).Some?) ==>
              next == i && f1 == f && stored == current
  {
    var fill := ProcessUInt8Parameter(parts, key, i);
    f1 := Mark(f, key, fill.marks);
    next := fill.next;
    stored := KeepFill(current, fill.value);
  }

  // ------------------------------------------------- one reader, stated on its own

  /** Where the readers leave a token: the cursor, the presence map and the value fields. */
  datatype State = State(next: int, marks: map<string, bool>, values: Values)

  /**
   * How the readers of flags with a value behave, apart from the flags'
   * spellings: which flags take a value, whether a flag takes a token as its
   * separate value, and the value fields after a flag stores a value text.
   * `Table` is parsing's own.
   */
  datatype ReaderTable = ReaderTable(valued: set<string>, takes: (string, string) -> bool, store: (Values, string, string) -> Values)

  /** Parsing's readers: the flags with a value, `ValueReads` and `Store`. */
  const Table: ReaderTable := ReaderTable(Valued, ValueReads, Store)

  /** Storing `t` for `x` twice stores it once, and the fields move only as parsing allows. */
  ghost predicate LawfulAt(tb: ReaderTable, v: Values, x: string, t: string) {
    && tb.store(tb.store(v, x, t), x, t) == tb.store(v, x, t)
    && Evolves(v, tb.store(v, x, t)) && QuotedKept(v.imageName, tb.store(v, x, t).imageName)
  }

  /** A table whose stores behave as parsing's do, for every flag with a value. */
  ghost predicate Lawful(tb: ReaderTable) {
    forall v: Values, x: string, t: string {:trigger LawfulAt(tb, v, x, t)} | x in tb.valued :: LawfulAt(tb, v, x, t)
  }

  /** Parsing's table is lawful. */
  lemma TableLawful()
    ensures Lawful(Table)
  {
    forall v: Values, x: string, t: string | x in Valued
      ensures Store(Store(v, x, t), x, t) == Store(v, x, t)
      ensures Evolves(v, Store(v, x, t)) && QuotedKept(v.imageName, Store(v, x, t).imageName)
    {
      StoreTwice(v, x, t);
      StoreKeeps(v, x, t);
    }
  }

  /** A table's entry for a 32-bit flag: the flag has a value, takes a number that parses and stores it in its own field. */
  ghost predicate Int32Entry(tb: ReaderTable, key: string) {
    && key in tb.valued
    && (forall u: string :: tb.takes(key, u) == TryParse(u, Int32).Some?)
    && (forall v: Values, t: string :: tb.store(v, key, t) == WithInt(v, key, StoredInt(IntOf(v, key), t)))
  }

  /** A table's entry for a text flag: the flag has a value, takes any token and stores it, in one pair of quotes when `quoted`. */
  ghost predicate TextEntry(tb: ReaderTable, key: string, quoted: bool) {
    && key in tb.valued
    && (forall u: string :: tb.takes(key, u))
    && (forall v: Values, t: string ::
          tb.store(v, key, t) == WithText(v, key, if quoted then StoredQuoted(TextOf(v, key), t) else StoredText(TextOf(v, key), t)))
  }

  /** A table's entry for the skip-fill flag: it has a value, takes a byte that parses and stores it. */
  ghost predicate FillEntry(tb: ReaderTable) {
    && SkipFill in tb.valued
    && (forall u: string :: tb.takes(SkipFill, u) == TryParse(u, Byte).Some?)
    && (forall v: Values, t: string :: tb.store(v, SkipFill, t) == v.(skipFill := StoredFill(v.skipFill, t)))
  }

  /** Parsing's table has the entry of each 32-bit flag. */
  lemma Int32InTable(key: string)
    requires key in Int32Valued
    ensures Int32Entry(Table, key)
  {
    KindsAreValued();
    Int32Spelling(key);
  }

  /** Parsing's table has the entry of each path flag. */
  lemma PathInTable(key: string)
    requires key in PathValued
    ensures TextEntry(Table, key, true)
  {
    KindsAreValued();
    PathSpelling(key);
  }

  /** Parsing's table has the entry of each plain text flag. */
  lemma PlainTextInTable(key: string)
    requires key in PlainTextValued
    ensures TextEntry(Table, key, false)
  {
    KindsAreValued();
    PlainTextSpelling(key);
  }

  /** Parsing's table has the entry of the skip-fill flag. */
  lemma FillInTable()
    ensures FillEntry(Table)
  {
    KindsAreValued();
    FillSpelling();
  }

  /**
   * What the reader of `key` does with the token at the cursor, stated on
   * its own. A flag with a value takes `key=t`, or `key` followed by a value
   * token it takes, moving the cursor onto that token; either way it marks
   * `key` and stores the value. A valueless flag's spelling (`-h` for
   * `--help`) marks it. Anything else leaves the state as it was.
   */
  function ReaderEffect(parts: seq<string>, s: State, key: string, tb: ReaderTable): (r: State)
    requires 0 <= s.next < |parts|
    ensures s.next <= r.next < |parts|
  {
    var t := parts[s.next];
    if key in tb.valued then
      if Assignment(t, key).Some? then State(s.next, s.marks[key := true], tb.store(s.values, key, Assignment(t, key).value))
      else if t == key && DoesExist(parts, s.next + 1) && tb.takes(key, parts[s.next + 1]) then
        State(s.next + 1, s.marks[key := true], tb.store(s.values, key, parts[s.next + 1]))
      else s
    else if t == key || (key == HelpLong && t == HelpShort) then s.(marks := s.marks[key := true])
    else s
  }

  /** The readers of `keys` run in order on one token, each starting where the previous one left the cursor. */
  function Pass(parts: seq<string>, s: State, keys: seq<string>, tb: ReaderTable): (r: State)
    requires 0 <= s.next < |parts|
    ensures s.next <= r.next < |parts|
    decreases |keys|
  {
    if keys == [] then s else ReaderEffect(parts, Pass(parts, s, keys[..|keys| - 1], tb), keys[|keys| - 1], tb)
  }

  /** One more reader at the end of a run. */
  lemma PassSnoc(parts: seq<string>, s: State, keys: seq<string>, key: string, tb: ReaderTable)
    requires 0 <= s.next < |parts|
    ensures Pass(parts, s, keys + [key], tb) == ReaderEffect(parts, Pass(parts, s, keys, tb), key, tb)
  {
    assert (keys + [key])[..|keys|] == keys;
  }

  /** A run of readers split in two: the second part starts where the first left the token. */
  lemma {:induction false} PassAppend(parts: seq<string>, s: State, a: seq<string>, b: seq<string>, tb: ReaderTable)
    requires 0 <= s.next < |parts|
    ensures Pass(parts, s, a + b, tb) == Pass(parts, Pass(parts, s, a, tb), b, tb)
    decreases |b|
  {
    if b == [] {
      assert a + b == a;
    } else {
      var init, last := b[..|b| - 1], b[|b| - 1];
      assert b == init + [last];
      assert a + b == (a + init) + [last];
      PassAppend(parts, s, a, init, tb);
      PassSnoc(parts, s, a + init, last, tb);
      PassSnoc(parts, Pass(parts, s, a, tb), init, last, tb);
    }
  }

  /** The flags with a value among `keys`. */
  function ValuedIn(keys: seq<string>, tb: ReaderTable): (r: set<string>)
    ensures forall k :: k in r <==> k in keys && k in tb.valued
  {
    set k | k in keys && k in tb.valued
  }

  /** The valueless flags among `keys`. */
  function SwitchesIn(keys: seq<string>, tb: ReaderTable): (r: set<string>)
    ensures forall k :: k in r <==> k in keys && k !in tb.valued
  {
    set k | k in keys && k !in tb.valued
  }

  /** Every key of the run is spelled without `=` and is not `-h`, as every flag constant is. */
  predicate Spelled(keys: set<string>) {
    forall k | k in keys :: '=' !in k && k != HelpShort
  }

  /**
   * What a run of readers for the flags `valued` (with a value) and
   * `switches` (without one) does with the token at `i`, taking the presence
   * map from f0 to f, the values from v0 to v, and leaving the cursor at
   * `next`: the four parts below, one per kind of token.
   */
  predicate Reads(parts: seq<string>, i: int, valued: set<string>, switches: set<string>, tb: ReaderTable,
                  f0: map<string, bool>, f: map<string, bool>, v0: Values, v: Values, next: int)
    requires 0 <= i < |parts|
  {
    && ReadsFrame(parts, i, valued + switches, f0, f, v0, v, next)
    && ReadsAssigned(parts, i, valued, tb, f0, f, v0, v, next)
    && ReadsSeparate(parts, i, valued, switches, tb, f0, f, v0, v, next)
    && ReadsBare(parts, i, valued, switches, f0, f, v0, v, next)
  }

  /** The cursor stays on the token or moves past it by one, only the run's flags are marked, and values move only as parsing allows. */
  predicate ReadsFrame(parts: seq<string>, i: int, keys: set<string>, f0: map<string, bool>, f: map<string, bool>, v0: Values, v: Values, next: int)
    requires 0 <= i < |parts|
  {
    i <= next < |parts| && MarksOnly(f0, f, keys) && Evolves(v0, v) && QuotedKept(v0.imageName, v.imageName)
  }

  /** `flag=t` for one of the run's flags marks exactly that flag and stores t; any other token holding `=` changes nothing. */
  predicate ReadsAssigned(parts: seq<string>, i: int, valued: set<string>, tb: ReaderTable,
                          f0: map<string, bool>, f: map<string, bool>, v0: Values, v: Values, next: int)
    requires 0 <= i < |parts|
  {
    var t, x := parts[i], FlagOf(parts[i]);
    && ('=' in t && x in valued && Assignment(t, x).Some? ==>
          next == i && MarksOnly(f0, f, {x}) && Marked(f, x) && v == tb.store(v0, x, Assignment(t, x).value))
    && ('=' in t && !(x in valued && Assignment(t, x).Some?) ==>
          next == i && f == f0 && v == v0)
  }

  /**
   * One of the run's flags followed by a value token it takes, that names
   * none of the run's flags, marks exactly that flag, stores the value token
   * and moves the cursor onto it; a flag whose value token is missing or is
   * not taken changes nothing.
   */
  predicate ReadsSeparate(parts: seq<string>, i: int, valued: set<string>, switches: set<string>, tb: ReaderTable,
                          f0: map<string, bool>, f: map<string, bool>, v0: Values, v: Values, next: int)
    requires 0 <= i < |parts|
  {
    var t := parts[i];
    && (t in valued && DoesExist(parts, i + 1) && tb.takes(t, parts[i + 1]) && Foreign(parts[i + 1], valued + switches) ==>
          next == i + 1 && MarksOnly(f0, f, {t}) && Marked(f, t) && v == tb.store(v0, t, parts[i + 1]))
    && (t in valued && !(DoesExist(parts, i + 1) && tb.takes(t, parts[i + 1])) ==>
          next == i && f == f0 && v == v0)
  }

  /** A valueless flag of the run (`-h` for `--help`) marks exactly its key; any other token without `=` that no valued flag of the run spells changes nothing. */
  predicate ReadsBare(parts: seq<string>, i: int, valued: set<string>, switches: set<string>,
                      f0: map<string, bool>, f: map<string, bool>, v0: Values, v: Values, next: int)
    requires 0 <= i < |parts|
  {
    var t := parts[i];
    && ('=' !in t && t !in valued && BareKey(t) in switches ==>
          next == i && MarksOnly(f0, f, {BareKey(t)}) && Marked(f, BareKey(t)) && v == v0)
    && ('=' !in t && t !in valued && BareKey(t) !in switches ==>
          next == i && f == f0 && v == v0)
  }

  /** An empty run of readers changes nothing. */
  lemma ReadsNothing(parts: seq<string>, i: int, tb: ReaderTable, f0: map<string, bool>, v0: Values)
    requires 0 <= i < |parts|
    ensures Reads(parts, i, {}, {}, tb, f0, f0, v0, v0, i)
  {
  }

  /** Marking only keys of `a`, then only keys of `b`, marks only keys of `a + b`. */
  lemma MarksOnlyJoin(m0: map<string, bool>, m1: map<string, bool>, m2: map<string, bool>, a: set<string>, b: set<string>)
    requires MarksOnly(m0, m1, a) && MarksOnly(m1, m2, b)
    ensures MarksOnly(m0, m2, a + b)
  {
  }

  /** The reader of a flag with a value does what `Reads` says of a run of that flag alone. */
  lemma ValuedReaderReads(parts: seq<string>, s: State, key: string, tb: ReaderTable)
    requires 0 <= s.next < |parts| && Lawful(tb) && '=' !in key && key in tb.valued
    ensures var r := ReaderEffect(parts, s, key, tb);
            Reads(parts, s.next, {key}, {}, tb, s.marks, r.marks, s.values, r.values, r.next)
  {
    var t := parts[s.next];
    if Assignment(t, key).Some? {
      assert LawfulAt(tb, s.values, key, Assignment(t, key).value);
    } else if t == key && DoesExist(parts, s.next + 1) {
      assert LawfulAt(tb, s.values, key, parts[s.next + 1]);
    }
  }

  /** The reader of a valueless flag does what `Reads` says of a run of that flag alone. */
  lemma SwitchReaderReads(parts: seq<string>, s: State, key: string, tb: ReaderTable)
    requires 0 <= s.next < |parts| && '=' !in key && key != HelpShort && key !in tb.valued
    ensures var r := ReaderEffect(parts, s, key, tb);
            Reads(parts, s.next, {}, {key}, tb, s.marks, r.marks, s.values, r.values, r.next)
  {
  }

  /** Any one reader does what `Reads` says of a run of its flag alone. */
  lemma ReaderReads(parts: seq<string>, s: State, key: string, tb: ReaderTable)
    requires 0 <= s.next < |parts| && Lawful(tb) && '=' !in key && key != HelpShort
    ensures var r := ReaderEffect(parts, s, key, tb);
            Reads(parts, s.next, ValuedIn([key], tb), SwitchesIn([key], tb), tb, s.marks, r.marks, s.values, r.values, r.next)
  {
    if key in tb.valued {
      ValuedReaderReads(parts, s, key, tb);
      assert ValuedIn([key], tb) == {key} && SwitchesIn([key], tb) == {};
    } else {
      SwitchReaderReads(parts, s, key, tb);
      assert ValuedIn([key], tb) == {} && SwitchesIn([key], tb) == {key};
    }
  }

  /** Two runs in a row keep to the frame of both. */
  lemma FrameThen(parts: seq<string>, i: int, n1: int, n2: int, ka: set<string>, kb: set<string>,
                  f0: map<string, bool>, f1: map<string, bool>, f2: map<string, bool>, v0: Values, v1: Values, v2: Values)
    requires 0 <= i <= n1 < |parts|
    requires ReadsFrame(parts, i, ka, f0, f1, v0, v1, n1) && ReadsFrame(parts, n1, kb, f1, f2, v1, v2, n2)
    ensures ReadsFrame(parts, i, ka + kb, f0, f2, v0, v2, n2)
  {
    MarksOnlyJoin(f0, f1, f2, ka, kb);
    EvolvesTrans(v0, v1, v2);
  }

  /** Two runs in a row read `flag=t` as one run: a flag read by both stores t once. */
  lemma AssignedThen(parts: seq<string>, i: int, n1: int, n2: int, tb: ReaderTable, va: set<string>, vb: set<string>,
                     f0: map<string, bool>, f1: map<string, bool>, f2: map<string, bool>, v0: Values, v1: Values, v2: Values)
    requires 0 <= i <= n1 < |parts| && Lawful(tb) && va + vb <= tb.valued
    requires ReadsAssigned(parts, i, va, tb, f0, f1, v0, v1, n1) && ReadsAssigned(parts, n1, vb, tb, f1, f2, v1, v2, n2)
    ensures ReadsAssigned(parts, i, va + vb, tb, f0, f2, v0, v2, n2)
  {
    var t, x := parts[i], FlagOf(parts[i]);
    if '=' in t && x in va + vb && Assignment(t, x).Some? {
      if x in va && x in vb {
        MarksOnlyJoin(f0, f1, f2, {x}, {x});
        assert {x} + {x} == {x};
        assert LawfulAt(tb, v0, x, Assignment(t, x).value);
      } else if x in va {
        MarksOnlyJoin(f0, f1, f2, {x}, {});
        assert {x} + {} == {x};
      } else {
        MarksOnlyJoin(f0, f1, f2, {}, {x});
        assert {} + {x} == {x};
      }
    }
  }

  /** Two runs in a row read `flag value` as one run: the second run's readers leave the value token alone. */
  lemma SeparateThen(parts: seq<string>, i: int, n1: int, n2: int, tb: ReaderTable,
                     va: set<string>, sa: set<string>, vb: set<string>, sb: set<string>,
                     f0: map<string, bool>, f1: map<string, bool>, f2: map<string, bool>, v0: Values, v1: Values, v2: Values)
    requires 0 <= i <= n1 < |parts|
    requires va + vb <= tb.valued && (sa + sb) !! tb.valued && Spelled(va + sa + vb + sb)
    requires ReadsSeparate(parts, i, va, sa, tb, f0, f1, v0, v1, n1) && ReadsBare(parts, i, va, sa, f0, f1, v0, v1, n1)
    requires ReadsSeparate(parts, n1, vb, sb, tb, f1, f2, v1, v2, n2) && ReadsBare(parts, n1, vb, sb, f1, f2, v1, v2, n2)
    ensures ReadsSeparate(parts, i, va + vb, sa + sb, tb, f0, f2, v0, v2, n2)
  {
    var t := parts[i];
    if t in va && DoesExist(parts, i + 1) && tb.takes(t, parts[i + 1]) && Foreign(parts[i + 1], va + vb + sa + sb) {
      MarksOnlyJoin(f0, f1, f2, {t}, {});
      assert {t} + {} == {t};
    }
    if t !in va && t in vb && DoesExist(parts, i + 1) && tb.takes(t, parts[i + 1]) && Foreign(parts[i + 1], va + vb + sa + sb) {
      MarksOnlyJoin(f0, f1, f2, {}, {t});
      assert {} + {t} == {t};
    }
  }

  /** Two runs in a row read a bare token as one run. */
  lemma BareThen(parts: seq<string>, i: int, n1: int, n2: int,
                 va: set<string>, sa: set<string>, vb: set<string>, sb: set<string>,
                 f0: map<string, bool>, f1: map<string, bool>, f2: map<string, bool>, v0: Values, v1: Values, v2: Values)
    requires 0 <= i <= n1 < |parts|
    requires ReadsBare(parts, i, va, sa, f0, f1, v0, v1, n1) && ReadsBare(parts, n1, vb, sb, f1, f2, v1, v2, n2)
    ensures ReadsBare(parts, i, va + vb, sa + sb, f0, f2, v0, v2, n2)
  {
    var t := parts[i];
    if '=' !in t && t !in va + vb && BareKey(t) in sa + sb {
      var k := BareKey(t);
      if k in sa && k in sb {
        MarksOnlyJoin(f0, f1, f2, {k}, {k});
        assert {k} + {k} == {k};
      } else if k in sa {
        MarksOnlyJoin(f0, f1, f2, {k}, {});
        assert {k} + {} == {k};
      } else {
        MarksOnlyJoin(f0, f1, f2, {}, {k});
        assert {} + {k} == {k};
      }
    }
  }

  /**
   * Two runs of readers, the second started where the first left the
   * cursor, act as one run on the flags of both. A flag read by both runs
   * is read once: the second reader finds the value token, or finds the
   * `flag=t` already stored.
   */
  lemma ReadsThen(parts: seq<string>, i: int, n1: int, n2: int, tb: ReaderTable,
                  va: set<string>, sa: set<string>, vb: set<string>, sb: set<string>,
                  f0: map<string, bool>, f1: map<string, bool>, f2: map<string, bool>, v0: Values, v1: Values, v2: Values)
    requires 0 <= i <= n1 < |parts| && Lawful(tb)
    requires Reads(parts, i, va, sa, tb, f0, f1, v0, v1, n1) && Reads(parts, n1, vb, sb, tb, f1, f2, v1, v2, n2)
    requires va + vb <= tb.valued && (sa + sb) !! tb.valued && Spelled(va + sa + vb + sb)
    ensures Reads(parts, i, va + vb, sa + sb, tb, f0, f2, v0, v2, n2)
  {
    FrameThen(parts, i, n1, n2, va + sa, vb + sb, f0, f1, f2, v0, v1, v2);
    assert (va + sa) + (vb + sb) == (va + vb) + (sa + sb);
    AssignedThen(parts, i, n1, n2, tb, va, vb, f0, f1, f2, v0, v1, v2);
    SeparateThen(parts, i, n1, n2, tb, va, sa, vb, sb, f0, f1, f2, v0, v1, v2);
    BareThen(parts, i, n1, n2, va, sa, vb, sb, f0, f1, f2, v0, v1, v2);
  }

  /** The flags of a run one reader longer. */
  lemma KeysSnoc(init: seq<string>, last: string, tb: ReaderTable)
    ensures ValuedIn(init + [last], tb) == ValuedIn(init, tb) + ValuedIn([last], tb)
    ensures SwitchesIn(init + [last], tb) == SwitchesIn(init, tb) + SwitchesIn([last], tb)
  {
  }

  /** A run of readers, each doing what `ReaderEffect` says, does what `Reads` says of the run. */
  lemma {:induction false} PassReads(parts: seq<string>, s: State, keys: seq<string>, tb: ReaderTable)
    requires 0 <= s.next < |parts| && Lawful(tb)
    requires forall k | k in keys :: '=' !in k && k != HelpShort
    ensures var r := Pass(parts, s, keys, tb);
            Reads(parts, s.next, ValuedIn(keys, tb), SwitchesIn(keys, tb), tb, s.marks, r.marks, s.values, r.values, r.next)
    decreases |keys|
  {
    if keys == [] {
      ReadsNothing(parts, s.next, tb, s.marks, s.values);
      assert ValuedIn(keys, tb) == {} && SwitchesIn(keys, tb) == {};
    } else {
      var init, last := keys[..|keys| - 1], keys[|keys| - 1];
      assert keys == init + [last];
      forall k | k in init
        ensures '=' !in k && k != HelpShort
      {
        assert k in keys;
      }
      PassReads(parts, s, init, tb);
      var p := Pass(parts, s, init, tb);
      ReaderReads(parts, p, last, tb);
      var r := ReaderEffect(parts, p, last, tb);
      KeysSnoc(init, last, tb);
      ReadsThen(parts, s.next, p.next, r.next, tb, ValuedIn(init, tb), SwitchesIn(init, tb), ValuedIn([last], tb), SwitchesIn([last], tb),
                s.marks, p.marks, r.marks, s.values, p.values, r.values);
    }
  }

  // ------------------------------------------------- the flag sweep, by region
  //
  // The source reads every token with the same run of readers, one block per
  // flag, grouped in five regions. Each region below runs its blocks in the
  // source's order; its result is the `Pass` of the region's readers.

  /** The General readers, in the source's order. */
  const GeneralReaders: seq<string> :=
    [HelpLong, Version, Verbose, Debug, Drive, Speed, Retries, ImagePath, ImageName, Overwrite]

  /** The Drive Configuration readers, in the source's order. */
  const DriveConfigurationReaders: seq<string> :=
    [DriveType, DriveReadOffset, DriveC2Shift, DrivePregapStart, DriveReadMethod, DriveSectorOrder]

  /** The Drive Specific and Offset readers, in the source's order. */
  const DriveSpecificAndOffsetReaders: seq<string> :=
    [PlextorSkipLeadin, PlextorLeadinRetries, AsusSkipLeadout, ForceOffset, AudioSilenceThreshold,
     CorrectOffsetShift, OffsetShiftRelocate]

  /** The Split readers, in the source's order. */
  const SplitReaders: seq<string> := [ForceSplit, LeaveUnchanged, ForceQTOC, SkipFill, ISO9660Trim]

  /** The Miscellaneous readers, in the source's order. */
  const MiscellaneousReaders: seq<string> :=
    [LBAStart, LBAEnd, RefineSubchannel, FlagStrings.Skip, DumpWriteOffset, DumpReadSize,
     OverreadLeadout, ForceUnscrambled, LegacySubs, DisableCDText]

  /** Every reader, region by region. */
  const Readers: seq<string> :=
    GeneralReaders + DriveConfigurationReaders + DriveSpecificAndOffsetReaders + SplitReaders + MiscellaneousReaders

  /** A valueless flag's block: its spelling, or `-h` for `--help`, marks it; any other token changes nothing. */
  method ReadSwitch(parts: seq<string>, i: int, key: string, f: map<string, bool>, ghost v: Values, ghost tb: ReaderTable)
    returns (f1: map<string, bool>)
    requires 0 <= i < |parts| && key !in tb.valued
    ensures State(i, f1, v) == ReaderEffect(parts, State(i, f, v), key, tb)
  {
    var on := ProcessFlagParameter(parts, if key == HelpLong then Some(HelpShort) else None, key, i);
    f1 := Mark(f, key, on);
  }

  /** A table with the entries the General readers use. */
  ghost predicate GeneralEntries(tb: ReaderTable) {
    && HelpLong !in tb.valued
    && Version !in tb.valued
    && Verbose !in tb.valued
    && FlagStrings.Debug !in tb.valued
    && TextEntry(tb, Drive, false)
    && Int32Entry(tb, Speed)
    && Int32Entry(tb, Retries)
    && TextEntry(tb, ImagePath, true)
    && TextEntry(tb, ImageName, true)
    && Overwrite !in tb.valued
  }

  /** Parsing's table has the entries of the General readers. */
  lemma GeneralInTable()
    ensures GeneralEntries(Table)
  {
    SwitchIsNotValued(HelpLong);
    SwitchIsNotValued(Version);
    SwitchIsNotValued(Verbose);
    SwitchIsNotValued(FlagStrings.Debug);
    PlainTextInTable(Drive);
    Int32InTable(Speed);
    Int32InTable(Retries);
    PathInTable(ImagePath);
    PathInTable(ImageName);
    SwitchIsNotValued(Overwrite);
  }

  /** A table with the entries the DriveConfiguration readers use. */
  ghost predicate DriveConfigurationEntries(tb: ReaderTable) {
    && TextEntry(tb, DriveType, false)
    && Int32Entry(tb, DriveReadOffset)
    && Int32Entry(tb, DriveC2Shift)
    && Int32Entry(tb, DrivePregapStart)
    && TextEntry(tb, DriveReadMethod, false)
    && TextEntry(tb, DriveSectorOrder, false)
  }

  /** Parsing's table has the entries of the DriveConfiguration readers. */
  lemma DriveConfigurationInTable()
    ensures DriveConfigurationEntries(Table)
  {
    PlainTextInTable(DriveType);
    Int32InTable(DriveReadOffset);
    Int32InTable(DriveC2Shift);
    Int32InTable(DrivePregapStart);
    PlainTextInTable(DriveReadMethod);
    PlainTextInTable(DriveSectorOrder);
  }

  /** A table with the entries the DriveSpecificAndOffset readers use. */
  ghost predicate DriveSpecificAndOffsetEntries(tb: ReaderTable) {
    && PlextorSkipLeadin !in tb.valued
    && Int32Entry(tb, PlextorLeadinRetries)
    && AsusSkipLeadout !in tb.valued
    && Int32Entry(tb, ForceOffset)
    && Int32Entry(tb, AudioSilenceThreshold)
    && CorrectOffsetShift !in tb.valued
    && OffsetShiftRelocate !in tb.valued
  }

  /** Parsing's table has the entries of the DriveSpecificAndOffset readers. */
  lemma DriveSpecificAndOffsetInTable()
    ensures DriveSpecificAndOffsetEntries(Table)
  {
    SwitchIsNotValued(PlextorSkipLeadin);
    Int32InTable(PlextorLeadinRetries);
    SwitchIsNotValued(AsusSkipLeadout);
    Int32InTable(ForceOffset);
    Int32InTable(AudioSilenceThreshold);
    SwitchIsNotValued(CorrectOffsetShift);
    SwitchIsNotValued(OffsetShiftRelocate);
  }

  /** A table with the entries the Split readers use. */
  ghost predicate SplitEntries(tb: ReaderTable) {
    && ForceSplit !in tb.valued
    && LeaveUnchanged !in tb.valued
    && ForceQTOC !in tb.valued
    && FillEntry(tb)
    && ISO9660Trim !in tb.valued
  }

  /** Parsing's table has the entries of the Split readers. */
  lemma SplitInTable()
    ensures SplitEntries(Table)
  {
    SwitchIsNotValued(ForceSplit);
    SwitchIsNotValued(LeaveUnchanged);
    SwitchIsNotValued(ForceQTOC);
    FillInTable();
    SwitchIsNotValued(ISO9660Trim);
  }

  /** A table with the entries the Miscellaneous readers use. */
  ghost predicate MiscellaneousEntries(tb: ReaderTable) {
    && Int32Entry(tb, LBAStart)
    && Int32Entry(tb, LBAEnd)
    && RefineSubchannel !in tb.valued
    && TextEntry(tb, FlagStrings.Skip, false)
    && Int32Entry(tb, DumpWriteOffset)
    && Int32Entry(tb, DumpReadSize)
    && OverreadLeadout !in tb.valued
    && ForceUnscrambled !in tb.valued
    && LegacySubs !in tb.valued
    && DisableCDText !in tb.valued
  }

  /** Parsing's table has the entries of the Miscellaneous readers. */
  lemma MiscellaneousInTable()
    ensures MiscellaneousEntries(Table)
  {
    Int32InTable(LBAStart);
    Int32InTable(LBAEnd);
    SwitchIsNotValued(RefineSubchannel);
    PlainTextInTable(FlagStrings.Skip);
    Int32InTable(DumpWriteOffset);
    Int32InTable(DumpReadSize);
    SwitchIsNotValued(OverreadLeadout);
    SwitchIsNotValued(ForceUnscrambled);
    SwitchIsNotValued(LegacySubs);
    SwitchIsNotValued(DisableCDText);
  }

  /**
   * The block of a 32-bit flag, after the readers run so far on the token:
   * `ProcessInt32Parameter`, then the field the flag owns keeps what it read.
   */
  method ReadInt32(parts: seq<string>, key: string, next: int, f: map<string, bool>, v: Values, ghost tb: ReaderTable)
    returns (next1: int, f1: map<string, bool>, v1: Values)
    requires 0 <= next < |parts| && Int32Entry(tb, key)
    ensures State(next1, f1, v1) == ReaderEffect(parts, State(next, f, v), key, tb)
  {
    var stored;
    next1, f1, stored := StepInt32(parts, next, key, f, IntOf(v, key));
    v1 := WithInt(v, key, stored);
  }

  /** The block of a path flag: `ProcessStringParameter`, then the field keeps the value in one pair of quotes. */
  method ReadPath(parts: seq<string>, key: string, next: int, f: map<string, bool>, v: Values, ghost tb: ReaderTable)
    returns (next1: int, f1: map<string, bool>, v1: Values)
    requires 0 <= next < |parts| && TextEntry(tb, key, true)
    ensures State(next1, f1, v1) == ReaderEffect(parts, State(next, f, v), key, tb)
  {
    var stored;
    next1, f1, stored := StepQuoted(parts, next, key, f, TextOf(v, key));
    v1 := WithText(v, key, stored);
  }

  /** The block of a plain text flag: `ProcessStringParameter`, then the field keeps the value without its quotes. */
  method ReadText(parts: seq<string>, key: string, next: int, f: map<string, bool>, v: Values, ghost tb: ReaderTable)
    returns (next1: int, f1: map<string, bool>, v1: Values)
    requires 0 <= next < |parts| && TextEntry(tb, key, false)
    ensures State(next1, f1, v1) == ReaderEffect(parts, State(next, f, v), key, tb)
  {
    var stored;
    next1, f1, stored := StepText(parts, next, key, f, TextOf(v, key));
    v1 := WithText(v, key, stored);
  }

  /** The block of the skip-fill flag: `ProcessUInt8Parameter`, then the byte keeps what it read. */
  method ReadFill(parts: seq<string>, next: int, f: map<string, bool>, v: Values, ghost tb: ReaderTable)
    returns (next1: int, f1: map<string, bool>, v1: Values)
    requires 0 <= next < |parts| && FillEntry(tb)
    ensures State(next1, f1, v1) == ReaderEffect(parts, State(next, f, v), SkipFill, tb)
  {
    var stored;
    next1, f1, stored := StepFill(parts, next, SkipFill, f, v.skipFill);
    v1 := v.(skipFill := stored);
  }

  /** The General readers, added one at a time as `ParseGeneral` reads them. */
  lemma GeneralReadersOneByOne()
    ensures [] + [HelpLong] + [Version] + [Verbose] + [FlagStrings.Debug] + [Drive] + [Speed]
              + [Retries] + [ImagePath] + [ImageName] + [Overwrite] == GeneralReaders
  {
  }

  /** The General readers, in the source's order: help, version, verbose and debug switches; drive, speed, retries, image path and image name; overwrite. */
  method ParseGeneral(parts: seq<string>, i: int, f0: map<string, bool>, v0: Values, ghost tb: ReaderTable)
    returns (next: int, f: map<string, bool>, v: Values)
    requires 0 <= i < |parts| && GeneralEntries(tb)
    ensures State(next, f, v) == Pass(parts, State(i, f0, v0), GeneralReaders, tb)
  {
    ghost var s, keys := State(i, f0, v0), [];
    next, f, v := i, f0, v0;
    f := ReadSwitch(parts, next, HelpLong, f, v, tb);
    PassSnoc(parts, s, keys, HelpLong, tb);
    keys := keys + [HelpLong];
    f := ReadSwitch(parts, next, Version, f, v, tb);
    PassSnoc(parts, s, keys, Version, tb);
    keys := keys + [Version];
    f := ReadSwitch(parts, next, Verbose, f, v, tb);
    PassSnoc(parts, s, keys, Verbose, tb);
    keys := keys + [Verbose];
    f := ReadSwitch(parts, next, FlagStrings.Debug, f, v, tb);
    PassSnoc(parts, s, keys, FlagStrings.Debug, tb);
    keys := keys + [FlagStrings.Debug];
    next, f, v := ReadText(parts, Drive, next, f, v, tb);
    PassSnoc(parts, s, keys, Drive, tb);
    keys := keys + [Drive];
    next, f, v := ReadInt32(parts, Speed, next, f, v, tb);
    PassSnoc(parts, s, keys, Speed, tb);
    keys := keys + [Speed];
    next, f, v := ReadInt32(parts, Retries, next, f, v, tb);
    PassSnoc(parts, s, keys, Retries, tb);
    keys := keys + [Retries];
    next, f, v := ReadPath(parts, ImagePath, next, f, v, tb);
    PassSnoc(parts, s, keys, ImagePath, tb);
    keys := keys + [ImagePath];
    next, f, v := ReadPath(parts, ImageName, next, f, v, tb);
    PassSnoc(parts, s, keys, ImageName, tb);
    keys := keys + [ImageName];
    f := ReadSwitch(parts, next, Overwrite, f, v, tb);
    PassSnoc(parts, s, keys, Overwrite, tb);
    keys := keys + [Overwrite];
    GeneralReadersOneByOne();
  }

  /** The Drive Configuration readers, added one at a time as `ParseDriveConfiguration` reads them. */
  lemma DriveConfigurationReadersOneByOne()
    ensures [] + [DriveType] + [DriveReadOffset] + [DriveC2Shift] + [DrivePregapStart]
              + [DriveReadMethod] + [DriveSectorOrder] == DriveConfigurationReaders
  {
  }

  /** The Drive Configuration readers, in the source's order: drive type, read offset, C2 shift, pregap start, read method, sector order; every one takes a value. */
  method ParseDriveConfiguration(parts: seq<string>, i: int, f0: map<string, bool>, v0: Values, ghost tb: ReaderTable)
    returns (next: int, f: map<string, bool>, v: Values)
    requires 0 <= i < |parts| && DriveConfigurationEntries(tb)
    ensures State(next, f, v) == Pass(parts, State(i, f0, v0), DriveConfigurationReaders, tb)
  {
    ghost var s, keys := State(i, f0, v0), [];
    next, f, v := i, f0, v0;
    next, f, v := ReadText(parts, DriveType, next, f, v, tb);
    PassSnoc(parts, s, keys, DriveType, tb);
    keys := keys + [DriveType];
    next, f, v := ReadInt32(parts, DriveReadOffset, next, f, v, tb);
    PassSnoc(parts, s, keys, DriveReadOffset, tb);
    keys := keys + [DriveReadOffset];
    next, f, v := ReadInt32(parts, DriveC2Shift, next, f, v, tb);
    PassSnoc(parts, s, keys, DriveC2Shift, tb);
    keys := keys + [DriveC2Shift];
    next, f, v := ReadInt32(parts, DrivePregapStart, next, f, v, tb);
    PassSnoc(parts, s, keys, DrivePregapStart, tb);
    keys := keys + [DrivePregapStart];
    next, f, v := ReadText(parts, DriveReadMethod, next, f, v, tb);
    PassSnoc(parts, s, keys, DriveReadMethod, tb);
    keys := keys + [DriveReadMethod];
    next, f, v := ReadText(parts, DriveSectorOrder, next, f, v, tb);
    PassSnoc(parts, s, keys, DriveSectorOrder, tb);
    keys := keys + [DriveSectorOrder];
    DriveConfigurationReadersOneByOne();
  }

  /** The Drive Specific and Offset readers, added one at a time as `ParseDriveSpecificAndOffset` reads them. */
  lemma DriveSpecificAndOffsetReadersOneByOne()
    ensures [] + [PlextorSkipLeadin] + [PlextorLeadinRetries] + [AsusSkipLeadout] + [ForceOffset]
              + [AudioSilenceThreshold] + [CorrectOffsetShift]
              + [OffsetShiftRelocate] == DriveSpecificAndOffsetReaders
  {
  }

  /** The Drive Specific and Offset readers, in the source's order: Plextor lead-in skip, lead-in retries, ASUS lead-out skip, force offset, audio silence threshold, offset-shift correction and relocation. */
  method ParseDriveSpecificAndOffset(parts: seq<string>, i: int, f0: map<string, bool>, v0: Values, ghost tb: ReaderTable)
    returns (next: int, f: map<string, bool>, v: Values)
    requires 0 <= i < |parts| && DriveSpecificAndOffsetEntries(tb)
    ensures State(next, f, v) == Pass(parts, State(i, f0, v0), DriveSpecificAndOffsetReaders, tb)
  {
    ghost var s, keys := State(i, f0, v0), [];
    next, f, v := i, f0, v0;
    f := ReadSwitch(parts, next, PlextorSkipLeadin, f, v, tb);
    PassSnoc(parts, s, keys, PlextorSkipLeadin, tb);
    keys := keys + [PlextorSkipLeadin];
    next, f, v := ReadInt32(parts, PlextorLeadinRetries, next, f, v, tb);
    PassSnoc(parts, s, keys, PlextorLeadinRetries, tb);
    keys := keys + [PlextorLeadinRetries];
    f := ReadSwitch(parts, next, AsusSkipLeadout, f, v, tb);
    PassSnoc(parts, s, keys, AsusSkipLeadout, tb);
    keys := keys + [AsusSkipLeadout];
    next, f, v := ReadInt32(parts, ForceOffset, next, f, v, tb);
    PassSnoc(parts, s, keys, ForceOffset, tb);
    keys := keys + [ForceOffset];
    next, f, v := ReadInt32(parts, AudioSilenceThreshold, next, f, v, tb);
    PassSnoc(parts, s, keys, AudioSilenceThreshold, tb);
    keys := keys + [AudioSilenceThreshold];
    f := ReadSwitch(parts, next, CorrectOffsetShift, f, v, tb);
    PassSnoc(parts, s, keys, CorrectOffsetShift, tb);
    keys := keys + [CorrectOffsetShift];
    f := ReadSwitch(parts, next, OffsetShiftRelocate, f, v, tb);
    PassSnoc(parts, s, keys, OffsetShiftRelocate, tb);
    keys := keys + [OffsetShiftRelocate];
    DriveSpecificAndOffsetReadersOneByOne();
  }

  /** The Split readers, added one at a time as `ParseSplit` reads them. */
  lemma SplitReadersOneByOne()
    ensures [] + [ForceSplit] + [LeaveUnchanged] + [ForceQTOC] + [SkipFill] + [ISO9660Trim] == SplitReaders
  {
  }

  /** The Split readers, in the source's order: force split, leave unchanged, force QTOC, skip fill, ISO 9660 trim. */
  method ParseSplit(parts: seq<string>, i: int, f0: map<string, bool>, v0: Values, ghost tb: ReaderTable)
    returns (next: int, f: map<string, bool>, v: Values)
    requires 0 <= i < |parts| && SplitEntries(tb)
    ensures State(next, f, v) == Pass(parts, State(i, f0, v0), SplitReaders, tb)
  {
    ghost var s, keys := State(i, f0, v0), [];
    next, f, v := i, f0, v0;
    f := ReadSwitch(parts, next, ForceSplit, f, v, tb);
    PassSnoc(parts, s, keys, ForceSplit, tb);
    keys := keys + [ForceSplit];
    f := ReadSwitch(parts, next, LeaveUnchanged, f, v, tb);
    PassSnoc(parts, s, keys, LeaveUnchanged, tb);
    keys := keys + [LeaveUnchanged];
    f := ReadSwitch(parts, next, ForceQTOC, f, v, tb);
    PassSnoc(parts, s, keys, ForceQTOC, tb);
    keys := keys + [ForceQTOC];
    next, f, v := ReadFill(parts, next, f, v, tb);
    PassSnoc(parts, s, keys, SkipFill, tb);
    keys := keys + [SkipFill];
    f := ReadSwitch(parts, next, ISO9660Trim, f, v, tb);
    PassSnoc(parts, s, keys, ISO9660Trim, tb);
    keys := keys + [ISO9660Trim];
    SplitReadersOneByOne();
  }

  /** The Miscellaneous readers, added one at a time as `ParseMiscellaneous` reads them. */
  lemma MiscellaneousReadersOneByOne()
    ensures [] + [LBAStart] + [LBAEnd] + [RefineSubchannel] + [FlagStrings.Skip] + [DumpWriteOffset]
              + [DumpReadSize] + [OverreadLeadout] + [ForceUnscrambled] + [LegacySubs]
              + [DisableCDText] == MiscellaneousReaders
  {
  }

  /** The Miscellaneous readers, in the source's order: LBA start and end, subchannel refinement, skip, dump write offset and read size, then four switches. */
  method ParseMiscellaneous(parts: seq<string>, i: int, f0: map<string, bool>, v0: Values, ghost tb: ReaderTable)
    returns (next: int, f: map<string, bool>, v: Values)
    requires 0 <= i < |parts| && MiscellaneousEntries(tb)
    ensures State(next, f, v) == Pass(parts, State(i, f0, v0), MiscellaneousReaders, tb)
  {
    ghost var s, keys := State(i, f0, v0), [];
    next, f, v := i, f0, v0;
    next, f, v := ReadInt32(parts, LBAStart, next, f, v, tb);
    PassSnoc(parts, s, keys, LBAStart, tb);
    keys := keys + [LBAStart];
    next, f, v := ReadInt32(parts, LBAEnd, next, f, v, tb);
    PassSnoc(parts, s, keys, LBAEnd, tb);
    keys := keys + [LBAEnd];
    f := ReadSwitch(parts, next, RefineSubchannel, f, v, tb);
    PassSnoc(parts, s, keys, RefineSubchannel, tb);
    keys := keys + [RefineSubchannel];
    next, f, v := ReadText(parts, FlagStrings.Skip, next, f, v, tb);
    PassSnoc(parts, s, keys, FlagStrings.Skip, tb);
    keys := keys + [FlagStrings.Skip];
    next, f, v := ReadInt32(parts, DumpWriteOffset, next, f, v, tb);
    PassSnoc(parts, s, keys, DumpWriteOffset, tb);
    keys := keys + [DumpWriteOffset];
    next, f, v := ReadInt32(parts, DumpReadSize, next, f, v, tb);
    PassSnoc(parts, s, keys, DumpReadSize, tb);
    keys := keys + [DumpReadSize];
    f := ReadSwitch(parts, next, OverreadLeadout, f, v, tb);
    PassSnoc(parts, s, keys, OverreadLeadout, tb);
    keys := keys + [OverreadLeadout];
    f := ReadSwitch(parts, next, ForceUnscrambled, f, v, tb);
    PassSnoc(parts, s, keys, ForceUnscrambled, tb);
    keys := keys + [ForceUnscrambled];
    f := ReadSwitch(parts, next, LegacySubs, f, v, tb);
    PassSnoc(parts, s, keys, LegacySubs, tb);
    keys := keys + [LegacySubs];
    f := ReadSwitch(parts, next, DisableCDText, f, v, tb);
    PassSnoc(parts, s, keys, DisableCDText, tb);
    keys := keys + [DisableCDText];
    MiscellaneousReadersOneByOne();
  }

  /** The General readers are spelled without `=`, are not `-h`, and are the General flags with a value and the General switches. */
  lemma GeneralReadersAre()
    ensures forall k | k in GeneralReaders :: '=' !in k && k != HelpShort && (k in GeneralValued || k in GeneralSwitches)
    ensures forall k | k in GeneralValued || k in GeneralSwitches :: k in GeneralReaders
  {
    GeneralHaveNoEquals();
  }

  /** The Drive Configuration readers are spelled without `=`, are not `-h`, and are that region's flags, every one with a value. */
  lemma DriveConfigurationReadersAre()
    ensures forall k | k in DriveConfigurationReaders :: '=' !in k && k != HelpShort && k in DriveConfigurationKeys
    ensures forall k | k in DriveConfigurationKeys :: k in DriveConfigurationReaders
  {
    DriveConfigurationHaveNoEquals();
  }

  /** The Drive Specific and Offset readers are spelled without `=`, are not `-h`, and are that region's flags with a value and its bare flags. */
  lemma DriveSpecificAndOffsetReadersAre()
    ensures forall k | k in DriveSpecificAndOffsetReaders ::
              '=' !in k && k != HelpShort && (k in DriveSpecificAndOffsetValued || k in DriveSpecificAndOffsetBare)
    ensures forall k | k in DriveSpecificAndOffsetValued || k in DriveSpecificAndOffsetBare :: k in DriveSpecificAndOffsetReaders
  {
    OthersHaveNoEquals();
  }

  /** The Split readers are spelled without `=`, are not `-h`, and are that region's flag with a value and its bare flags. */
  lemma SplitReadersAre()
    ensures forall k | k in SplitReaders :: '=' !in k && k != HelpShort && (k in SplitValued || k in SplitBare)
    ensures forall k | k in SplitValued || k in SplitBare :: k in SplitReaders
  {
    OthersHaveNoEquals();
  }

  /** The Miscellaneous readers are spelled without `=`, are not `-h`, and are that region's flags with a value and its bare flags. */
  lemma MiscellaneousReadersAre()
    ensures forall k | k in MiscellaneousReaders ::
              '=' !in k && k != HelpShort && (k in MiscellaneousValued || k in MiscellaneousBare)
    ensures forall k | k in MiscellaneousValued || k in MiscellaneousBare :: k in MiscellaneousReaders
  {
    OthersHaveNoEquals();
  }

  /** Every reader's flag is spelled without `=` and is not `-h`. */
  lemma ReadersSpelled()
    ensures forall k | k in Readers :: '=' !in k && k != HelpShort
  {
    GeneralReadersAre();
    DriveConfigurationReadersAre();
    DriveSpecificAndOffsetReadersAre();
    SplitReadersAre();
    MiscellaneousReadersAre();
  }

  /** Every flag with a value has a reader. */
  lemma ValuedHaveReaders()
    ensures forall k | k in Valued :: k in Readers
  {
    GeneralReadersAre();
    DriveConfigurationReadersAre();
    DriveSpecificAndOffsetReadersAre();
    SplitReadersAre();
    MiscellaneousReadersAre();
  }

  /** Every switch has a reader, and takes no value. */
  lemma SwitchesHaveReaders()
    ensures forall k | k in Switches :: k in Readers && k !in Valued
  {
    GeneralReadersAre();
    DriveSpecificAndOffsetReadersAre();
    SplitReadersAre();
    MiscellaneousReadersAre();
    ValuedAreNotSwitches();
  }

  /** A reader whose flag takes no value reads a switch. */
  lemma ReadersWithoutValueAreSwitches()
    ensures forall k | k in Readers && k !in Valued :: k in Switches
  {
    GeneralReadersAre();
    DriveConfigurationReadersAre();
    DriveSpecificAndOffsetReadersAre();
    SplitReadersAre();
    MiscellaneousReadersAre();
  }

  /** The readers cover exactly the parsed flags: every flag with a value, and every valueless flag parsing marks. */
  lemma ReadersCover(tb: ReaderTable)
    requires tb.valued == Valued
    ensures ValuedIn(Readers, tb) == Valued && SwitchesIn(Readers, tb) == Switches
  {
    ValuedHaveReaders();
    SwitchesHaveReaders();
    ReadersWithoutValueAreSwitches();
  }

  /** One pass of the flag loop's body: every reader, region by region, run on the token at the cursor; parsing's own pass takes `Table`. */
  ghost function TokenPass(parts: seq<string>, s: State, tb: ReaderTable): (r: State)
    requires 0 <= s.next < |parts|
    ensures s.next <= r.next < |parts|
  {
    Pass(parts, s, Readers, tb)
  }

  /**
   * One pass of every reader over the token at `i`: the five regions in the
   * source's order. It is `TokenPass`; it marks only parsed
   * flags; a token holding `=` or a bare flag is read in place, as
   * `PlacedKeys` and `PlacedValues` say.
   */
  method ParseToken(parts: seq<string>, i: int, f: map<string, bool>, v: Values)
    returns (next: int, f1: map<string, bool>, v1: Values)
    requires 0 <= i < |parts|
    ensures State(next, f1, v1) == TokenPass(parts, State(i, f, v), Table)
    ensures i <= next < |parts| && MarksOnly(f, f1, Parsed) && Evolves(v, v1)
    ensures Sweep(parts, State(i, f, v), Readers, Table) == Sweep(parts, State(next + 1, f1, v1), Readers, Table)
    ensures InPlace(parts[i]) ==>
              && next == i && MarksOnly(f, f1, PlacedKeys(parts[i])) && (forall k | k in PlacedKeys(parts[i]) :: Marked(f1, k))
              && v1 == PlacedValues(parts[i], v)
  {
    ghost var s := State(i, f, v);
    GeneralInTable();
    var n1, fa, va := ParseGeneral(parts, i, f, v, Table);
    DriveConfigurationInTable();
    var n2, fb, vb := ParseDriveConfiguration(parts, n1, fa, va, Table);
    PassAppend(parts, s, GeneralReaders, DriveConfigurationReaders, Table);
    DriveSpecificAndOffsetInTable();
    var n3, fc, vc := ParseDriveSpecificAndOffset(parts, n2, fb, vb, Table);
    PassAppend(parts, s, GeneralReaders + DriveConfigurationReaders, DriveSpecificAndOffsetReaders, Table);
    SplitInTable();
    var n4, fd, vd := ParseSplit(parts, n3, fc, vc, Table);
    PassAppend(parts, s, GeneralReaders + DriveConfigurationReaders + DriveSpecificAndOffsetReaders, SplitReaders, Table);
    MiscellaneousInTable();
    next, f1, v1 := ParseMiscellaneous(parts, n4, fd, vd, Table);
    PassAppend(parts, s, GeneralReaders + DriveConfigurationReaders + DriveSpecificAndOffsetReaders + SplitReaders,
               MiscellaneousReaders, Table);
    TableLawful();
    TokenReads(parts, s, Table);
    SwitchesAndValued();
    PassEffect(parts, s, Table);
    if InPlace(parts[i]) {
      PlacedEffect(parts, i, v);
    }
    SweepAfterPass(parts, s, Readers, Table, next, f1, v1);
  }

  /** The readers of every parsed flag, run on the token at the cursor, do what `Reads` says of a run over all of them. */
  lemma TokenReads(parts: seq<string>, s: State, tb: ReaderTable)
    requires 0 <= s.next < |parts| && Lawful(tb) && tb.valued == Valued
    ensures var r := TokenPass(parts, s, tb);
            Reads(parts, s.next, Valued, Switches, tb, s.marks, r.marks, s.values, r.values, r.next)
  {
    ReadersSpelled();
    PassReads(parts, s, Readers, tb);
    ReadersCover(tb);
  }

  /**
   * The mode loop of parsing: the leading mode words, and the position of the
   * first other token; the scan fails at a token that is neither a mode word
   * nor flag-like.
   */
  method ReadModes(parts: seq<string>) returns (modes: seq<string>, index: nat, ok: bool)
    ensures index == ModeRunLength(parts) && modes == parts[..index]
    ensures ok <==> index == |parts| || StartsWith(parts[index], "-")
  {
    modes, index := [], 0;
    while index < |parts|
      invariant index <= ModeRunLength(parts)
      invariant modes == parts[..index]
    {
      var part := parts[index];
      if CommandStrings.IsMode(part) {
        assert parts[..index + 1] == parts[..index] + [part];
        modes := modes + [part];
        index := index + 1;
      } else if StartsWith(part, "-") {
        return modes, index, true;
      } else {
        return modes, index, false;
      }
    }
    ok := true;
  }

  /** What one pass of the readers does with a token: the keys it marks, the value fields after it, and the cursor it leaves. */
  datatype Effect = Effect(marks: set<string>, values: Values, next: int)

  /**
   * One pass over the token at `j`, stated on its own: `flag=t` for a flag
   * with a value marks it and stores t; such a flag followed by a value
   * token it takes marks it, stores that token and moves the cursor onto
   * it; a bare token marks the key it names; anything else does nothing.
   * There is no effect stated when the value token is itself a flag
   * spelling, a `-h` or holds `=`: the readers after the flag then read it
   * in turn.
   */
  function TokenEffect(parts: seq<string>, j: int, v: Values, tb: ReaderTable): (r: Option<Effect>)
    requires 0 <= j < |parts|
    ensures r.Some? ==> j <= r.value.next < |parts|
    ensures r.Some? && r.value.next != j ==> parts[j] in tb.valued
  {
    var t := parts[j];
    if '=' in t then
      var x := FlagOf(t);
      if x in tb.valued && Assignment(t, x).Some? then Some(Effect({x}, tb.store(v, x, Assignment(t, x).value), j))
      else Some(Effect({}, v, j))
    else if t in tb.valued then
      if DoesExist(parts, j + 1) && tb.takes(t, parts[j + 1]) then
        if Foreign(parts[j + 1], Parsed) then Some(Effect({t}, tb.store(v, t, parts[j + 1]), j + 1)) else None
      else Some(Effect({}, v, j))
    else if t in BareTokens then Some(Effect(Switched(t), v, j))
    else Some(Effect({}, v, j))
  }

  /** The readers of every parsed flag do to the token at the cursor what `TokenEffect` says, whenever it states an effect. */
  lemma PassEffect(parts: seq<string>, s: State, tb: ReaderTable)
    requires 0 <= s.next < |parts| && Lawful(tb) && tb.valued == Valued
    ensures var r := TokenPass(parts, s, tb);
            TokenEffect(parts, s.next, s.values, tb).Some? ==>
              var e := TokenEffect(parts, s.next, s.values, tb).value;
              && r.next == e.next && MarksOnly(s.marks, r.marks, e.marks) && (forall k | k in e.marks :: Marked(r.marks, k))
              && r.values == e.values
  {
    TokenReads(parts, s, tb);
    var t := parts[s.next];
    SwitchesAndValued();
    BareHaveNoEquals();
    if t in BareTokens {
      BareTokenShape(t);
      if t == AutoEject {
        AutoEjectIsNotParsed();
      } else {
        BareKeyIsSwitch(t);
      }
    }
  }

  /** A token read the same way wherever it stands: one holding `=`, or a bare flag. */
  predicate InPlace(t: string) {
    '=' in t || t in BareTokens
  }

  /** The keys an in-place token marks: the flag of `flag=t` when that flag takes a value and t is read, the key a bare token names. */
  function PlacedKeys(t: string): set<string> {
    if '=' in t then
      var x := FlagOf(t);
      if x in Valued && Assignment(t, x).Some? then {x} else {}
    else Switched(t)
  }

  /** The value fields after an in-place token: `flag=t` stores t for its flag; a bare token stores nothing. */
  function PlacedValues(t: string, v: Values): Values {
    var x := FlagOf(t);
    if '=' in t && x in Valued && Assignment(t, x).Some? then Store(v, x, Assignment(t, x).value) else v
  }

  /** The keys a run of in-place tokens marks, token by token. */
  function MarkedBy(s: seq<string>): set<string> {
    if s == [] then {} else MarkedBy(s[..|s| - 1]) + PlacedKeys(s[|s| - 1])
  }

  /** The value fields after a run of in-place tokens, each stored in turn, so that a later token wins. */
  function StoredBy(s: seq<string>, v: Values): Values {
    if s == [] then v else PlacedValues(s[|s| - 1], StoredBy(s[..|s| - 1], v))
  }

  /** An in-place token's effect, stated on its own, is what `PlacedKeys` and `PlacedValues` say, with the cursor left on it. */
  lemma PlacedEffect(parts: seq<string>, j: int, v: Values)
    requires 0 <= j < |parts| && InPlace(parts[j])
    ensures TokenEffect(parts, j, v, Table) == Some(Effect(PlacedKeys(parts[j]), PlacedValues(parts[j], v), j))
  {
    if '=' !in parts[j] {
      BareTokenShape(parts[j]);
    }
  }

  /** A run of in-place tokens marks a key exactly when one of its tokens does. */
  lemma {:induction false} MarkedByAny(s: seq<string>, k: string)
    ensures k in MarkedBy(s) <==> exists j :: 0 <= j < |s| && k in PlacedKeys(s[j])
    decreases |s|
  {
    if s != [] {
      var init, last := s[..|s| - 1], s[|s| - 1];
      MarkedByAny(init, k);
      assert MarkedBy(s) == MarkedBy(init) + PlacedKeys(last);
      if k in MarkedBy(init) {
        var j :| 0 <= j < |init| && k in PlacedKeys(init[j]);
        assert s[j] == init[j];
        assert 0 <= j < |s| && k in PlacedKeys(s[j]);
      } else if k in PlacedKeys(last) {
        assert 0 <= |s| - 1 < |s| && k in PlacedKeys(s[|s| - 1]);
      }
      if exists j :: 0 <= j < |s| && k in PlacedKeys(s[j]) {
        var j :| 0 <= j < |s| && k in PlacedKeys(s[j]);
        if j < |init| {
          assert init[j] == s[j];
          assert 0 <= j < |init| && k in PlacedKeys(init[j]);
        } else {
          assert j == |s| - 1;
        }
      }
    }
  }

  /** A run of bare tokens stores nothing. */
  lemma {:induction false} StoredByBare(s: seq<string>, v: Values)
    requires forall j | 0 <= j < |s| :: s[j] in BareTokens
    ensures StoredBy(s, v) == v
    decreases |s|
  {
    if s != [] {
      StoredByBare(s[..|s| - 1], v);
      BareTokenShape(s[|s| - 1]);
    }
  }

  /** Storing a run moves the value fields only as parsing allows. */
  lemma {:induction false} StoredByEvolves(s: seq<string>, v: Values)
    ensures Evolves(v, StoredBy(s, v))
    decreases |s|
  {
    if s != [] {
      var w := StoredBy(s[..|s| - 1], v);
      StoredByEvolves(s[..|s| - 1], v);
      var t := s[|s| - 1];
      if '=' in t && FlagOf(t) in Valued && Assignment(t, FlagOf(t)).Some? {
        StoreKeeps(w, FlagOf(t), Assignment(t, FlagOf(t)).value);
        EvolvesTrans(v, w, StoredBy(s, v));
      }
    }
  }

  /** Two runs read one after the other are one run: their keys join and the second stores over the first. */
  lemma {:induction false} StoredByAppend(a: seq<string>, b: seq<string>, v: Values)
    ensures MarkedBy(a + b) == MarkedBy(a) + MarkedBy(b)
    ensures StoredBy(a + b, v) == StoredBy(b, StoredBy(a, v))
    decreases |b|
  {
    if b == [] {
      assert a + b == a;
    } else {
      var init := b[..|b| - 1];
      assert (a + b)[..|a + b| - 1] == a + init;
      assert (a + b)[|a + b| - 1] == b[|b| - 1];
      StoredByAppend(a, init, v);
    }
  }

  /** A lone `flag=t` for a flag with a value is read in place: it marks the flag and stores t. */
  lemma PlacedAssignment(x: string, t: string, v: Values)
    requires x in Valued && '=' !in t
    ensures InPlace(x + "=" + t)
    ensures MarkedBy([x + "=" + t]) == {x} && StoredBy([x + "=" + t], v) == Store(v, x, t)
  {
    ValuedHaveNoEquals();
    AssignmentOfSpelled(x, t);
    FlagOfSpelled(x, t);
    assert '=' in x + "=" + t by { assert (x + "=" + t)[|x|] == '='; }
    assert [x + "=" + t][..0] == [];
  }

  /** A lone `flag value`, whose value token is taken and names no flag, marks the flag, stores the value and moves the cursor onto it. */
  lemma SeparateEffect(x: string, u: string, v: Values)
    requires x in Valued && u != [] && ValueReads(x, u) && Foreign(u, Parsed)
    ensures TokenEffect([x, u], 0, v, Table) == Some(Effect({x}, Store(v, x, u), 1))
  {
    ValuedHaveNoEquals();
  }

  /**
   * The flag loop on its own: a pass of every reader over the token at the
   * cursor, then on from the token after the one that pass stopped on, until
   * the tokens run out. Parsing's loop takes `Table`.
   */
  ghost function Sweep(parts: seq<string>, s: State, keys: seq<string>, tb: ReaderTable): (r: State)
    requires 0 <= s.next <= |parts|
    ensures r.next == |parts|
    decreases |parts| - s.next
  {
    if s.next == |parts| then s
    else
      var t := Pass(parts, s, keys, tb);
      Sweep(parts, State(t.next + 1, t.marks, t.values), keys, tb)
  }

  /** The loop before a token is the pass over it, then the loop after the token that pass stopped on. */
  lemma SweepStep(parts: seq<string>, s: State, keys: seq<string>, tb: ReaderTable)
    requires 0 <= s.next < |parts|
    ensures var t := Pass(parts, s, keys, tb);
            Sweep(parts, s, keys, tb) == Sweep(parts, State(t.next + 1, t.marks, t.values), keys, tb)
  {
  }

  /** After the pass over a token left the cursor at `next`, the marks `f` and the values `v`, the loop goes on from the token after `next`. */
  lemma SweepAfterPass(parts: seq<string>, s: State, keys: seq<string>, tb: ReaderTable, next: int, f: map<string, bool>, v: Values)
    requires 0 <= s.next < |parts| && State(next, f, v) == Pass(parts, s, keys, tb)
    ensures next < |parts| && Sweep(parts, s, keys, tb) == Sweep(parts, State(next + 1, f, v), keys, tb)
  {
    SweepStep(parts, s, keys, tb);
  }

  /**
   * The keys marked and the value fields left by the tokens from `j` on,
   * taken one effect at a time as `TokenEffect` says; none when a token it
   * reaches has no stated effect.
   */
  function EffectRun(parts: seq<string>, j: int, v: Values, tb: ReaderTable): (r: Option<(set<string>, Values)>)
    requires 0 <= j <= |parts|
    ensures j == |parts| ==> r == Some(({}, v))
    decreases |parts| - j
  {
    if j == |parts| then Some(({}, v))
    else
      var e := TokenEffect(parts, j, v, tb);
      if e.None? then None
      else
        var rest := EffectRun(parts, e.value.next + 1, e.value.values, tb);
        if rest.None? then None else Some((e.value.marks + rest.value.0, rest.value.1))
  }

  /** The presence map m after m0 marked exactly the keys `keys`: those are set, and every other entry is as before. */
  predicate MarkedExactly(m0: map<string, bool>, m: map<string, bool>, keys: set<string>) {
    MarksOnly(m0, m, keys) && forall k | k in keys :: Marked(m, k)
  }

  /** Marking no key leaves the presence map as it was. */
  lemma MarkedNothing(m: map<string, bool>)
    ensures MarkedExactly(m, m, {})
  {
  }

  /** Marking exactly a, then exactly b, marks exactly a + b. */
  lemma MarkedExactlyThen(f0: map<string, bool>, f: map<string, bool>, f1: map<string, bool>, a: set<string>, b: set<string>)
    requires MarkedExactly(f0, f, a) && MarkedExactly(f, f1, b)
    ensures MarkedExactly(f0, f1, a + b)
  {
    MarksOnlyJoin(f0, f, f1, a, b);
  }

  /**
   * A token whose effect marks `keys`, leaves `w` and stops on `n`, followed
   * by a stated run, makes a stated run: its keys and the rest's, and the
   * rest's values.
   */
  lemma EffectRunCons(parts: seq<string>, j: int, v: Values, tb: ReaderTable, keys: set<string>, w: Values, n: int)
    requires 0 <= j < |parts| && TokenEffect(parts, j, v, tb) == Some(Effect(keys, w, n)) && EffectRun(parts, n + 1, w, tb).Some?
    ensures var rest := EffectRun(parts, n + 1, w, tb).value;
            EffectRun(parts, j, v, tb) == Some((keys + rest.0, rest.1))
  {
  }

  /** The run of readers does to the token at the cursor what `TokenEffect` says, if it says anything. */
  ghost predicate PassAgrees(parts: seq<string>, s: State, keys: seq<string>, tb: ReaderTable)
    requires 0 <= s.next < |parts|
  {
    var r, e := Pass(parts, s, keys, tb), TokenEffect(parts, s.next, s.values, tb);
    e.Some? ==> r.next == e.value.next && MarkedExactly(s.marks, r.marks, e.value.marks) && r.values == e.value.values
  }

  /** The run of readers does what `TokenEffect` says at every cursor of `parts` and in every state. */
  ghost predicate PassFollows(parts: seq<string>, keys: seq<string>, tb: ReaderTable) {
    forall s: State | 0 <= s.next < |parts| :: PassAgrees(parts, s, keys, tb)
  }

  /** Parsing's readers, under a lawful table for the flags with a value, follow `TokenEffect` on any tokens. */
  lemma ReadersFollow(parts: seq<string>, tb: ReaderTable)
    requires Lawful(tb) && tb.valued == Valued
    ensures PassFollows(parts, Readers, tb)
  {
    forall s: State | 0 <= s.next < |parts|
      ensures PassAgrees(parts, s, Readers, tb)
    {
      PassEffect(parts, s, tb);
    }
  }

  /** A stated run of effects from a token is that token's effect, then the run from the token after the one it stopped on. */
  lemma EffectRunStep(parts: seq<string>, j: int, v: Values, tb: ReaderTable)
    requires 0 <= j < |parts| && EffectRun(parts, j, v, tb).Some?
    ensures TokenEffect(parts, j, v, tb).Some?
    ensures var e := TokenEffect(parts, j, v, tb).value;
            && EffectRun(parts, e.next + 1, e.values, tb).Some?
            && EffectRun(parts, j, v, tb).value
                 == (e.marks + EffectRun(parts, e.next + 1, e.values, tb).value.0, EffectRun(parts, e.next + 1, e.values, tb).value.1)
  {
  }

  /** Where `TokenEffect` states the effect `e`, the pass leaves `e`'s cursor and values and marks exactly `e`'s keys. */
  lemma PassDoesEffect(parts: seq<string>, s: State, keys: seq<string>, tb: ReaderTable, e: Effect)
    requires 0 <= s.next < |parts| && PassFollows(parts, keys, tb) && TokenEffect(parts, s.next, s.values, tb) == Some(e)
    ensures var t := Pass(parts, s, keys, tb);
            t == State(e.next, t.marks, e.values) && MarkedExactly(s.marks, t.marks, e.marks)
  {
    assert PassAgrees(parts, s, keys, tb);
  }

  /**
   * The flag loop follows the tokens' effects: wherever `EffectRun` states
   * the marks and values of the tokens from the cursor on, the loop marks
   * exactly those keys and leaves exactly those values.
   */
  lemma {:induction false} SweepFollowsEffects(parts: seq<string>, s: State, keys: seq<string>, tb: ReaderTable)
    requires 0 <= s.next <= |parts| && PassFollows(parts, keys, tb) && EffectRun(parts, s.next, s.values, tb).Some?
    ensures var r, e := Sweep(parts, s, keys, tb), EffectRun(parts, s.next, s.values, tb).value;
            MarkedExactly(s.marks, r.marks, e.0) && r.values == e.1
    decreases |parts| - s.next
  {
    if s.next == |parts| {
      MarkedNothing(s.marks);
    } else {
      EffectRunStep(parts, s.next, s.values, tb);
      var e := TokenEffect(parts, s.next, s.values, tb).value;
      PassDoesEffect(parts, s, keys, tb, e);
      var t := Pass(parts, s, keys, tb);
      SweepAfterPass(parts, s, keys, tb, e.next, t.marks, e.values);
      var s' := State(e.next + 1, t.marks, e.values);
      SweepFollowsEffects(parts, s', keys, tb);
      MarkedExactlyThen(s.marks, t.marks, Sweep(parts, s', keys, tb).marks, e.marks, EffectRun(parts, e.next + 1, e.values, tb).value.0);
    }
  }

  /** The effects of a last `flag value` pair whose value the flag's reader takes and which names no flag: the flag, and the value stored. */
  lemma SeparatePairRun(parts: seq<string>, j: int, v: Values)
    requires 0 <= j && j + 2 == |parts| && parts[j] in Valued
    requires parts[j + 1] != [] && ValueReads(parts[j], parts[j + 1]) && Foreign(parts[j + 1], Parsed)
    ensures EffectRun(parts, j, v, Table) == Some(({parts[j]}, Store(v, parts[j], parts[j + 1])))
  {
    ValuedHaveNoEquals();
    assert TokenEffect(parts, j, v, Table) == Some(Effect({parts[j]}, Store(v, parts[j], parts[j + 1]), j + 1));
    assert {parts[j]} + {} == {parts[j]};
  }

  /**
   * A last `flag value` pair, such as `--speed 8` at the end of the line,
   * whose value the flag's reader takes and which names no flag: the loop
   * marks the flag and stores the value, and nothing else.
   */
  lemma SeparatePairSwept(parts: seq<string>, j: int, f: map<string, bool>, v: Values)
    requires 0 <= j && j + 2 == |parts| && parts[j] in Valued
    requires parts[j + 1] != [] && ValueReads(parts[j], parts[j + 1]) && Foreign(parts[j + 1], Parsed)
    ensures var r := Sweep(parts, State(j, f, v), Readers, Table);
            MarkedExactly(f, r.marks, {parts[j]}) && r.values == Store(v, parts[j], parts[j + 1])
  {
    SeparatePairRun(parts, j, v);
    TableLawful();
    ReadersFollow(parts, Table);
    SweepFollowsEffects(parts, State(j, f, v), Readers, Table);
  }

  /** Marking only keys of `keys` is closed under sequencing. */
  lemma MarksOnlyTrans(m0: map<string, bool>, m1: map<string, bool>, m2: map<string, bool>, keys: set<string>)
    requires MarksOnly(m0, m1, keys) && MarksOnly(m1, m2, keys)
    ensures MarksOnly(m0, m2, keys)
  {
  }

  /** The moves parsing makes on the value fields are closed under sequencing. */
  lemma EvolvesTrans(a: Values, b: Values, c: Values)
    requires Evolves(a, b) && Evolves(b, c)
    ensures Evolves(a, c)
  {
  }

  /** The pass only marks keys of `within`, and its values move only as parsing allows. */
  ghost predicate PassFramedAt(parts: seq<string>, s: State, keys: seq<string>, tb: ReaderTable, within: set<string>)
    requires 0 <= s.next < |parts|
  {
    var r := Pass(parts, s, keys, tb);
    MarksOnly(s.marks, r.marks, within) && Evolves(s.values, r.values)
  }

  /** The pass is framed by `within` at every cursor of `parts` and in every state. */
  ghost predicate PassFramed(parts: seq<string>, keys: seq<string>, tb: ReaderTable, within: set<string>) {
    forall s: State | 0 <= s.next < |parts| :: PassFramedAt(parts, s, keys, tb, within)
  }

  /** Parsing's pass marks only parsed keys. */
  lemma ReadersFramed(parts: seq<string>)
    ensures PassFramed(parts, Readers, Table, Parsed)
  {
    TableLawful();
    SwitchesAndValued();
    forall s: State | 0 <= s.next < |parts|
      ensures PassFramedAt(parts, s, Readers, Table, Parsed)
    {
      TokenReads(parts, s, Table);
    }
  }

  /** A loop of framed passes is framed too. */
  lemma {:induction false} SweepFramed(parts: seq<string>, s: State, keys: seq<string>, tb: ReaderTable, within: set<string>)
    requires 0 <= s.next <= |parts| && PassFramed(parts, keys, tb, within)
    ensures var r := Sweep(parts, s, keys, tb);
            MarksOnly(s.marks, r.marks, within) && Evolves(s.values, r.values)
    decreases |parts| - s.next
  {
    if s.next < |parts| {
      var t := Pass(parts, s, keys, tb);
      assert PassFramedAt(parts, s, keys, tb, within);
      SweepAfterPass(parts, s, keys, tb, t.next, t.marks, t.values);
      var s' := State(t.next + 1, t.marks, t.values);
      SweepFramed(parts, s', keys, tb, within);
      var r := Sweep(parts, s', keys, tb);
      MarksOnlyTrans(s.marks, t.marks, r.marks, within);
      EvolvesTrans(s.values, t.values, r.values);
    }
  }

  /** Parsing's flag loop marks only parsed keys, and its values move only as parsing allows. */
  lemma SweepKeeps(parts: seq<string>, s: State)
    requires 0 <= s.next <= |parts|
    ensures var r := Sweep(parts, s, Readers, Table);
            MarksOnly(s.marks, r.marks, Parsed) && Evolves(s.values, r.values)
  {
    ReadersFramed(parts);
    SweepFramed(parts, s, Readers, Table, Parsed);
  }

  /** A run marks what its first token marks and what the rest marks. */
  lemma {:induction false} MarkedByCons(s: seq<string>)
    requires s != []
    ensures MarkedBy(s) == PlacedKeys(s[0]) + MarkedBy(s[1..])
    decreases |s|
  {
    if |s| > 1 {
      var init := s[..|s| - 1];
      MarkedByCons(init);
      assert s[1..][..|s| - 2] == init[1..];
    } else {
      assert s[..0] == [] && s[1..] == [];
    }
  }

  /** A run stores its first token's values, then the rest's over them. */
  lemma {:induction false} StoredByCons(s: seq<string>, v: Values)
    requires s != []
    ensures StoredBy(s, v) == StoredBy(s[1..], PlacedValues(s[0], v))
    decreases |s|
  {
    if |s| > 1 {
      var init := s[..|s| - 1];
      StoredByCons(init, v);
      assert s[1..][..|s| - 2] == init[1..];
    } else {
      assert s[..0] == [] && s[1..] == [];
    }
  }

  /** The run from `j` is the token at `j`, then the run from `j + 1`. */
  lemma RunFoldCons(parts: seq<string>, j: int, v: Values)
    requires 0 <= j < |parts|
    ensures MarkedBy(parts[j..]) == PlacedKeys(parts[j]) + MarkedBy(parts[j + 1..])
    ensures StoredBy(parts[j..], v) == StoredBy(parts[j + 1..], PlacedValues(parts[j], v))
  {
    assert parts[j..][0] == parts[j] && parts[j..][1..] == parts[j + 1..];
    MarkedByCons(parts[j..]);
    StoredByCons(parts[j..], v);
  }

  /** The table gives every in-place token of `parts` the effect `PlacedKeys` and `PlacedValues` say, in every state. */
  ghost predicate PlacedFollows(parts: seq<string>, tb: ReaderTable) {
    forall j: int, v: Values | 0 <= j < |parts| && InPlace(parts[j]) ::
      TokenEffect(parts, j, v, tb) == Some(Effect(PlacedKeys(parts[j]), PlacedValues(parts[j], v), j))
  }

  /** Parsing's table does. */
  lemma TablePlaced(parts: seq<string>)
    ensures PlacedFollows(parts, Table)
  {
    forall j: int, v: Values | 0 <= j < |parts| && InPlace(parts[j])
      ensures TokenEffect(parts, j, v, Table) == Some(Effect(PlacedKeys(parts[j]), PlacedValues(parts[j], v), j))
    {
      PlacedEffect(parts, j, v);
    }
  }

  /** Over in-place tokens, the run of effects is the keys `MarkedBy` names and the values `StoredBy` leaves. */
  lemma {:induction false} PlacedRun(parts: seq<string>, j: int, v: Values, tb: ReaderTable)
    requires 0 <= j <= |parts| && PlacedFollows(parts, tb) && forall k | j <= k < |parts| :: InPlace(parts[k])
    ensures EffectRun(parts, j, v, tb) == Some((MarkedBy(parts[j..]), StoredBy(parts[j..], v)))
    decreases |parts| - j
  {
    if j == |parts| {
      assert parts[j..] == [];
    } else {
      var keys, w := PlacedKeys(parts[j]), PlacedValues(parts[j], v);
      assert TokenEffect(parts, j, v, tb) == Some(Effect(keys, w, j));
      PlacedRun(parts, j + 1, w, tb);
      EffectRunCons(parts, j, v, tb, keys, w, j);
      RunFoldCons(parts, j, v);
    }
  }

  /** Over in-place tokens, parsing's flag loop marks exactly the keys `MarkedBy` names and leaves the values `StoredBy` gives. */
  lemma PlacedSweep(parts: seq<string>, s: State)
    requires 0 <= s.next <= |parts| && forall k | s.next <= k < |parts| :: InPlace(parts[k])
    ensures var r := Sweep(parts, s, Readers, Table);
            MarkedExactly(s.marks, r.marks, MarkedBy(parts[s.next..])) && r.values == StoredBy(parts[s.next..], s.values)
  {
    TablePlaced(parts);
    PlacedRun(parts, s.next, s.values, Table);
    TableLawful();
    ReadersFollow(parts, Table);
    SweepFollowsEffects(parts, s, Readers, Table);
  }

  /**
   * The flag loop of parsing: from `start` on, every token is offered to every
   * reader in turn, each reader skipping over the value token it consumes.
   * Only parsed keys are marked and values move only as parsing allows; over
   * a run of in-place tokens, the marks and values are those the run's
   * tokens give one after the other.
   */
  method ReadFlags(parts: seq<string>, start: nat, f0: map<string, bool>, v0: Values)
    returns (f: map<string, bool>, v: Values)
    requires start <= |parts|
    ensures State(|parts|, f, v) == Sweep(parts, State(start, f0, v0), Readers, Table)
    ensures MarksOnly(f0, f, Parsed) && Evolves(v0, v)
    ensures (forall j | start <= j < |parts| :: InPlace(parts[j])) ==>
              && MarksOnly(f0, f, MarkedBy(parts[start..])) && (forall k | k in MarkedBy(parts[start..]) :: Marked(f, k))
              && v == StoredBy(parts[start..], v0)
  {
    f, v := f0, v0;
    var i := start;
    while i < |parts|
      invariant start <= i <= |parts|
      invariant Sweep(parts, State(i, f, v), Readers, Table) == Sweep(parts, State(start, f0, v0), Readers, Table)
      decreases |parts| - i
    {
      var next, f1, v1 := ParseToken(parts, i, f, v);
      f, v, i := f1, v1, next + 1;
    }
    SweepKeeps(parts, State(start, f0, v0));
    if forall j | start <= j < |parts| :: InPlace(parts[j]) {
      PlacedSweep(parts, State(start, f0, v0));
    }
  }

  /**
   * Parsing the tokens of a parameter string: the leading mode words, then,
   * when the next token looks like a flag, the flag loop over the rest, and
   * the image-name default.
   */
  method ParseTokens(parts: seq<string>, f0: map<string, bool>, v0: Values)
    returns (modes: seq<string>, ok: bool, f: map<string, bool>, v: Values)
    ensures var n := ModeRunLength(parts);
            && modes == parts[..n]
            && (ok <==> n == |parts| || StartsWith(parts[n], "-"))
    ensures ok ==> MarksOnly(f0, f, Parsed) && Evolves(v0, v)
    ensures ok ==> v.imageName.Some? && v.imageName.value != []
    ensures !ok ==> f == f0 && v == v0
    ensures ok ==> var r := Sweep(parts, State(ModeRunLength(parts), f0, v0), Readers, Table);
                   f == r.marks && v == WithDefaultImageName(r.values)
    ensures parts == [] ==> ok && f == f0
    ensures var n := ModeRunLength(parts);
            (forall j | n <= j < |parts| :: parts[j] in BareTokens) ==>
              && ok
              && MarksOnly(f0, f, MarkedBy(parts[n..]))
              && (forall k | k in MarkedBy(parts[n..]) :: Marked(f, k))
              && v == WithDefaultImageName(v0)
    ensures var n := ModeRunLength(parts);
            ok && (forall j | n <= j < |parts| :: InPlace(parts[j])) ==>
              && MarksOnly(f0, f, MarkedBy(parts[n..]))
              && (forall k | k in MarkedBy(parts[n..]) :: Marked(f, k))
              && v == WithDefaultImageName(StoredBy(parts[n..], v0))
  {
    var index;
    modes, index, ok := ReadModes(parts);
    if index < |parts| && parts[index] in BareTokens {
      BareTokenIsFlagLike(parts[index]);
    }
    if forall j | index <= j < |parts| :: parts[j] in BareTokens {
      StoredByBare(parts[index..], v0);
    }
    if !ok {
      return modes, ok, f0, v0;
    }
    f, v := ReadFlags(parts, index, f0, v0);
    v := WithDefaultImageName(v);
  }

  /** The value fields after parsing: an image name that is unset or empty becomes `track`; nothing else changes. */
  function WithDefaultImageName(v: Values): (r: Values)
    ensures r.imageName.Some? && r.imageName.value != []
    ensures v.imageName.Some? && v.imageName.value != [] ==> r == v
    ensures r.(imageName := v.imageName) == v
    ensures Evolves(v, r)
  {
    if v.imageName.None? || v.imageName.value == [] then v.(imageName := Some(DefaultImageName)) else v
  }

  /** The media types redumper can dump: CD-ROM, DVD, HD-DVD and Blu-ray. */
  predicate Dumpable(mediaType: Option<MediaType>) {
    mediaType == Some(CDROM) || mediaType == Some(DVD) || mediaType == Some(HDDVD) || mediaType == Some(BluRay)
  }

  /** The mode the defaulting step runs for a dumpable media type (and, for CD-ROM, the system). */
  function DefaultMode(mediaType: MediaType, system: Option<RedumpSystem>): (r: string)
    ensures mediaType != OtherMediaType ==> CommandStrings.IsMode(r)
    ensures mediaType == DVD || mediaType == HDDVD ==> r == CommandStrings.DVD
    ensures mediaType == CDROM ==> (r == CommandStrings.SACD <==> system == Some(SuperAudioCD))
    ensures mediaType == CDROM && system != Some(SuperAudioCD) ==> r == CommandStrings.CD
    ensures mediaType == BluRay ==> r == CommandStrings.BluRay
  {
    match mediaType
    case CDROM => if system == Some(SuperAudioCD) then CommandStrings.SACD else CommandStrings.CD
    case DVD => CommandStrings.DVD
    case HDDVD => CommandStrings.DVD
    case BluRay => CommandStrings.BluRay
    case OtherMediaType => CommandStrings.NONE
  }

  /** A read-method or sector-order setting the defaulting step passes on: present, non-empty, and not `NONE`. */
  predicate UsableSetting(s: Option<string>) {
    s.Some? && s.value != [] && s.value != "NONE"
  }

  /** The presence-map entry for `key` after `this[key] = true` when c holds, and untouched otherwise. */
  predicate MarkedWhen(m0: map<string, bool>, m1: map<string, bool>, key: string, c: bool) {
    if c then key in m1 && m1[key] else (key in m1 <==> key in m0) && (key in m1 ==> m1[key] == m0[key])
  }

  /** A presence map turning every key of `keys` on. */
  function TurnedOn(keys: set<string>): (m: map<string, bool>)
    ensures m.Keys == keys && forall k | k in m :: m[k]
  {
    map k | k in keys :: true
  }

  /** Turning a set of keys on marks exactly those keys and leaves every other entry as it was. */
  lemma TurnOnMarks(m: map<string, bool>, keys: set<string>, key: string)
    ensures MarksOnly(m, m + TurnedOn(keys), keys)
    ensures MarkedWhen(m, m + TurnedOn(keys), key, key in keys)
  {
  }

  /** The settings the defaulting step reads. */
  datatype Preferences = Preferences(
    verbose: bool, debug: bool, readMethod: Option<string>, sectorOrder: Option<string>,
    genericDriveType: bool, rereadCount: int32, leadinRetry: bool, leadinRetryCount: int32)

  /** The settings looked up in the options, each falling back to its default. */
  function ReadPreferences(options: Options): Preferences {
    Preferences(
      GetBooleanSetting(options, EnableVerbose, EnableVerboseDefault),
      GetBooleanSetting(options, EnableDebug, EnableDebugDefault),
      GetStringSetting(options, ReadMethod, ReadMethodDefault),
      GetStringSetting(options, SectorOrder, SectorOrderDefault),
      GetBooleanSetting(options, UseGenericDriveType, UseGenericDriveTypeDefault),
      GetInt32Setting(options, RereadCount, RereadCountDefault),
      GetBooleanSetting(options, EnableLeadinRetry, EnableLeadinRetryDefault),
      GetInt32Setting(options, LeadinRetryCount, LeadinRetryCountDefault))
  }

  /** The output directory the defaulting step derives from the output file name; empty for an empty name. */
  function OutputDirectory(filename: string): (r: string)
    ensures r != [] ==> filename != [] && r == Paths.GetDirectoryName(filename)
  {
    if filename != [] then Paths.GetDirectoryName(filename) else []
  }

  /** The image name the defaulting step derives from the output file name; empty for an empty name. */
  function OutputName(filename: string): (r: string)
    ensures r != [] ==> filename != [] && r == Paths.GetFileNameWithoutExtension(filename)
  {
    if filename != [] then Paths.GetFileNameWithoutExtension(filename) else []
  }

  /** The presence-map keys the defaulting step turns on for these settings and this output directory and name. */
  function DefaultedKeys(p: Preferences, directory: string, name: string): set<string> {
    {Drive, Speed}
    + (if p.verbose then {Verbose} else {})
    + (if p.debug then {FlagStrings.Debug} else {})
    + (if UsableSetting(p.readMethod) then {DriveReadMethod} else {})
    + (if UsableSetting(p.sectorOrder) then {DriveSectorOrder} else {})
    + (if p.genericDriveType then {DriveType} else {})
    + (if directory != [] then {ImagePath} else {})
    + (if name != [] then {ImageName} else {})
    + {Retries}
    + (if p.leadinRetry then {PlextorLeadinRetries} else {})
  }

  /** The drive, the speed and the retry count are always turned on, verbose and debug output exactly when their setting is on. */
  lemma DefaultedKeysFollowSettings(p: Preferences, directory: string, name: string)
    ensures var keys := DefaultedKeys(p, directory, name);
            && Drive in keys && Speed in keys && Retries in keys
            && (Verbose in keys <==> p.verbose)
            && (FlagStrings.Debug in keys <==> p.debug)
  {
  }

  /** The generic drive type and the lead-in retries are turned on exactly when their setting is on. */
  lemma DefaultedKeysFollowDriveSettings(p: Preferences, directory: string, name: string)
    ensures var keys := DefaultedKeys(p, directory, name);
            && (DriveType in keys <==> p.genericDriveType)
            && (PlextorLeadinRetries in keys <==> p.leadinRetry)
  {
  }

  /** The read method and sector order are turned on exactly when their setting is usable. */
  lemma DefaultedKeysFollowValues(p: Preferences, directory: string, name: string)
    ensures var keys := DefaultedKeys(p, directory, name);
            && (DriveReadMethod in keys <==> UsableSetting(p.readMethod))
            && (DriveSectorOrder in keys <==> UsableSetting(p.sectorOrder))
  {
  }

  /** The image path and name are turned on exactly when the output file gives a non-empty directory and name. */
  lemma DefaultedKeysFollowOutput(p: Preferences, directory: string, name: string)
    ensures var keys := DefaultedKeys(p, directory, name);
            && (ImagePath in keys <==> directory != [])
            && (ImageName in keys <==> name != [])
  {
  }

  /** The values the defaulting step stores: drive and speed as given, the retry counts, and each settings-driven value when usable. */
  function DefaultedValues(v: Values, drivePath: Option<string>, driveSpeed: Option<int32>, p: Preferences, directory: string, name: string): Values {
    v.(drive := drivePath, speed := driveSpeed,
       driveReadMethod := if UsableSetting(p.readMethod) then p.readMethod else v.driveReadMethod,
       driveSectorOrder := if UsableSetting(p.sectorOrder) then p.sectorOrder else v.driveSectorOrder,
       driveType := if p.genericDriveType then Some("GENERIC") else v.driveType,
       imagePath := if directory != [] then Some(Quote(directory)) else v.imagePath,
       imageName := if name != [] then Some(Quote(name)) else v.imageName,
       retries := Some(p.rereadCount),
       plextorLeadinRetries := if p.leadinRetry then Some(p.leadinRetryCount) else v.plextorLeadinRetries)
  }

  /**
   * Every valued flag the defaulting step turns on (the drive and speed aside,
   * which are stored as given) carries a non-empty value, so generation writes
   * it; the output directory and name are stored quoted.
   */
  lemma DefaultedFlagsCarryValues(v: Values, drivePath: Option<string>, driveSpeed: Option<int32>, p: Preferences, directory: string, name: string)
    ensures var keys := DefaultedKeys(p, directory, name);
            var r := DefaultedValues(v, drivePath, driveSpeed, p, directory, name);
            && r.drive == drivePath && r.speed == driveSpeed && r.retries == Some(p.rereadCount)
            && (DriveReadMethod in keys ==> r.driveReadMethod.Some? && r.driveReadMethod.value != [])
            && (DriveSectorOrder in keys ==> r.driveSectorOrder.Some? && r.driveSectorOrder.value != [])
            && (DriveType in keys ==> r.driveType == Some("GENERIC"))
            && (ImagePath in keys ==> r.imagePath == Some(Quote(directory)))
            && (ImageName in keys ==> r.imageName == Some(Quote(name)))
            && (PlextorLeadinRetries in keys ==> r.plextorLeadinRetries == Some(p.leadinRetryCount))
  {
    DefaultedKeysFollowDriveSettings(p, directory, name);
    DefaultedKeysFollowValues(p, directory, name);
    DefaultedKeysFollowOutput(p, directory, name);
  }

  /** The defaulting step stores nothing for a flag it does not turn on, and touches no other value. */
  lemma DefaultsKeepOthers(v: Values, drivePath: Option<string>, driveSpeed: Option<int32>, p: Preferences, directory: string, name: string)
    ensures var keys := DefaultedKeys(p, directory, name);
            var r := DefaultedValues(v, drivePath, driveSpeed, p, directory, name);
            && (DriveReadMethod !in keys ==> r.driveReadMethod == v.driveReadMethod)
            && (DriveSectorOrder !in keys ==> r.driveSectorOrder == v.driveSectorOrder)
            && (DriveType !in keys ==> r.driveType == v.driveType)
            && (ImagePath !in keys ==> r.imagePath == v.imagePath)
            && (ImageName !in keys ==> r.imageName == v.imageName)
            && (PlextorLeadinRetries !in keys ==> r.plextorLeadinRetries == v.plextorLeadinRetries)
            && r.(drive := v.drive, speed := v.speed, retries := v.retries, driveReadMethod := v.driveReadMethod,
                  driveSectorOrder := v.driveSectorOrder, driveType := v.driveType, imagePath := v.imagePath,
                  imageName := v.imageName, plextorLeadinRetries := v.plextorLeadinRetries) == v
  {
    DefaultedKeysFollowDriveSettings(p, directory, name);
    DefaultedKeysFollowValues(p, directory, name);
    DefaultedKeysFollowOutput(p, directory, name);
  }

  /** The flags whose value is a 32-bit integer written and read as decimal digits (the read size aside). */
  predicate IsIntFlag(flag: string) {
    || flag == Speed || flag == Retries || flag == DriveReadOffset || flag == DriveC2Shift
    || flag == DrivePregapStart || flag == PlextorLeadinRetries || flag == ForceOffset
    || flag == AudioSilenceThreshold || flag == LBAStart || flag == LBAEnd || flag == DumpWriteOffset
  }

  /** An integer flag is not written bare. */
  lemma IntFlagIsNotBare(flag: string)
    requires IsIntFlag(flag)
    ensures flag !in Bare
    ensures flag != Drive && flag != SkipFill && flag != DumpReadSize
  {
  }

  /** The drive, the skip-fill byte and the read size are not written bare, and none of them is an integer flag. */
  lemma SpecialValuedAreNotBare()
    ensures Drive !in Bare && SkipFill !in Bare && DumpReadSize !in Bare
    ensures !IsIntFlag(SkipFill) && !IsIntFlag(DumpReadSize)
  {
  }

  /** Every integer flag is among the flags generation writes. */
  lemma IntFlagIsGenerated(flag: string)
    requires IsIntFlag(flag)
    ensures flag in GenerationOrder
  {
    AllButHelpShortGenerated();
    assert flag in All;
  }

  /** An integer field as generation writes it, `{value}`: decimal digits that read back as the same value. */
  function RenderInt(v: Option<int32>): (r: Option<string>)
    ensures r.Some? <==> v.Some?
    ensures r.Some? ==> TryParse(r.value, Int32) == Some(v.value as int)
  {
    if v.Some? then
      StagedRoundTrip(v.value as int, Int32);
      DecimalRoundTrip(v.value as int);
      Some(DecimalString(v.value as int))
    else None
  }

  class ExecutionContext {
    /** The base command; redumper always uses the empty placeholder. */
    var BaseCommand: Option<string>
    /** The presence map `this[flag]`: a flag is on when its entry is present and true. */
    var flags: map<string, bool>
    const Type: Option<MediaType>
    const System: Option<RedumpSystem>

    /** The modes being run, in order. */
    var ModeValues: Option<seq<string>>

    /** The typed values the flags carry, one component per flag that takes a value. */
    var values: Values

    /** A context for the given system and media type, with no command, no flags and no values. */
    constructor (system: Option<RedumpSystem>, mediaType: Option<MediaType>)
      ensures System == system && Type == mediaType
      ensures BaseCommand == None && flags == map[] && ModeValues == None
      ensures values == NoValues
    {
      System := system;
      Type := mediaType;
      BaseCommand := None;
      flags := map[];
      ModeValues := None;
      values := NoValues;
    }

    /** `this[flag] == true`. */
    predicate IsSet(flag: string)
      reads this
    {
      flag in flags && flags[flag]
    }

    /** `InputPath`: the drive with its surrounding quotes removed. */
    function InputPath(): (r: Option<string>)
      reads this
      ensures r.Some? <==> values.drive.Some?
      ensures r.Some? && r.value != [] ==> r.value[0] != '"' && r.value[|r.value| - 1] != '"'
    {
      if values.drive.Some? then Some(TrimChar(values.drive.value, '"')) else None
    }

    /** A drive stored in one pair of quotes is reported without them. */
    lemma InputPathUnquotes(d: string)
      requires d != [] && d[0] != '"' && d[|d| - 1] != '"'
      requires values.drive == Some(Quote(d))
      ensures InputPath() == Some(d)
    {
      TrimQuoteWrapped(d);
    }

    /** `Speed`: the drive speed as stored. */
    function Speed(): (r: Option<int32>)
      reads this
      ensures r == values.speed
    {
      values.speed
    }

    /** Every flag is supported under the single empty placeholder command, in declaration order. */
    function GetCommandSupport(): (r: map<string, seq<string>>)
      ensures r.Keys == {CommandStrings.NONE}
      ensures |r[CommandStrings.NONE]| == 40
      ensures forall i | 0 <= i < 40 :: Position(r[CommandStrings.NONE][i]) == i
    {
      PositionOfAll();
      map[CommandStrings.NONE := All]
    }

    /** The placeholder command, or a command naming a dumping mode, dumps. */
    predicate IsDumpingCommand()
      reads this
      ensures BaseCommand == Some(CommandStrings.NONE) ==> IsDumpingCommand()
      ensures BaseCommand.None? ==> !IsDumpingCommand()
    {
      || BaseCommand == Some(CommandStrings.NONE)
      || (BaseCommand.Some? && (
           || Contains(BaseCommand.value, CommandStrings.CD)
           || Contains(BaseCommand.value, CommandStrings.DVD)
           || Contains(BaseCommand.value, CommandStrings.BluRay)
           || Contains(BaseCommand.value, CommandStrings.SACD)
           || Contains(BaseCommand.value, CommandStrings.New)
           || Contains(BaseCommand.value, CommandStrings.Dump)
           || Contains(BaseCommand.value, CommandStrings.DumpNew)))
    }

    /** Parsing and defaulting leave the placeholder command, and a command naming a dumping mode dumps; no command does not. */
    lemma DumpingCommands(m: string)
      requires m in {CommandStrings.CD, CommandStrings.DVD, CommandStrings.BluRay, CommandStrings.SACD,
                     CommandStrings.New, CommandStrings.Dump, CommandStrings.DumpNew}
      ensures BaseCommand == Some(CommandStrings.NONE) ==> IsDumpingCommand()
      ensures BaseCommand.Some? && Contains(BaseCommand.value, m) ==> IsDumpingCommand()
      ensures BaseCommand.None? ==> !IsDumpingCommand()
    {
    }

    // ------------------------------------------------- generation

    /** The integer field generation writes for a valued integer flag, or none for any other spelling. */
    function IntField(flag: string): Option<int32>
      reads this
    {
      if flag == FlagStrings.Speed then values.speed
      else if flag == Retries then values.retries
      else if flag == DriveReadOffset then values.driveReadOffset
      else if flag == DriveC2Shift then values.driveC2Shift
      else if flag == DrivePregapStart then values.drivePregapStart
      else if flag == PlextorLeadinRetries then values.plextorLeadinRetries
      else if flag == ForceOffset then values.forceOffset
      else if flag == AudioSilenceThreshold then values.audioSilenceThreshold
      else if flag == LBAStart then values.lbaStart
      else if flag == LBAEnd then values.lbaEnd
      else if flag == DumpWriteOffset then values.dumpWriteOffset
      else None
    }

    /**
     * The text generation writes after `flag=`, when the flag carries one: the
     * drive quoted when it holds a space, the skip-fill byte in lowercase hex,
     * skip ranges only when non-empty, the read size only when positive, and
     * every other field as stored.
     */
    function ValueText(flag: string): (r: Option<string>)
      reads this
      ensures flag == Drive ==> (r.Some? <==> values.drive.Some?)
      ensures flag == SkipFill ==> (r.Some? <==> values.skipFill.Some?)
      ensures flag == DumpReadSize ==>
                && (r.Some? <==> values.dumpReadSize.Some? && values.dumpReadSize.value > 0)
                && (r.Some? ==> TryParse(r.value, Int32) == Some(values.dumpReadSize.value as int))
      ensures flag == FlagStrings.Skip ==> (r.Some? <==> values.skip.Some? && values.skip.value != []) && (r.Some? ==> r == values.skip)
      ensures IsIntFlag(flag) ==>
                && (r.Some? <==> IntField(flag).Some?)
                && (r.Some? ==> TryParse(r.value, Int32) == Some(IntField(flag).value as int))
    {
      if flag == Drive then
        (if values.drive.Some? then Some(if ' ' in values.drive.value then Quote(values.drive.value) else values.drive.value) else None)
      else if flag == SkipFill then (if values.skipFill.Some? then Some(LowerHex(values.skipFill.value as nat)) else None)
      else if flag == DumpReadSize then
        (if values.dumpReadSize.Some? && values.dumpReadSize.value > 0 then RenderInt(values.dumpReadSize) else None)
      else if IsIntFlag(flag) then RenderInt(IntField(flag))
      else if flag == ImagePath then values.imagePath
      else if flag == ImageName then values.imageName
      else if flag == DriveType then values.driveType
      else if flag == DriveReadMethod then values.driveReadMethod
      else if flag == DriveSectorOrder then values.driveSectorOrder
      else if flag == FlagStrings.Skip then (if values.skip.Some? && values.skip.value != [] then values.skip else None)
      else None
    }

    /** What one flag's block adds to the command line: nothing unless `this[flag] == true`. */
    function Fragment(flag: string): (r: seq<string>)
      reads this
      ensures |r| <= 1
      ensures r != [] ==> IsSet(flag)
      ensures flag in Bare ==> (r == [flag] <==> IsSet(flag)) && (r == [] <==> !IsSet(flag))
      ensures r != [] && flag !in Bare ==> ValueText(flag).Some? && r[0] == flag + "=" + ValueText(flag).value
    {
      if !IsSet(flag) then []
      else if flag in Bare then [flag]
      else if ValueText(flag).Some? then [flag + "=" + ValueText(flag).value]
      else []
    }

    /** The tokens the flag blocks add, in the order given. */
    function EmittedFrom(order: seq<string>): (r: seq<string>)
      reads this
      ensures |r| <= |order|
    {
      if order == [] then [] else EmittedFrom(order[..|order| - 1]) + Fragment(order[|order| - 1])
    }

    /** Generation: the modes (the placeholder when none are set), then each set flag's token in declaration order. */
    method GenerateParameters() returns (r: string)
      modifies this`ModeValues
      ensures old(ModeValues).None? ==> ModeValues == Some([CommandStrings.NONE])
      ensures old(ModeValues).Some? ==> ModeValues == old(ModeValues)
      ensures r == JoinSpace(ModeValues.value + EmittedFrom(GenerationOrder))
    {
      if ModeValues.None? {
        ModeValues := Some([CommandStrings.NONE]);
      }
      r := JoinSpace(ModeValues.value + EmittedFrom(GenerationOrder));
    }

    /** When every flag of the order is spelled with `--`, so is every token the blocks add. */
    lemma {:induction false} EmittedAreLong(order: seq<string>)
      requires forall k | 0 <= k < |order| :: |order[k]| >= 2 && order[k][0] == '-' && order[k][1] == '-'
      ensures forall j | 0 <= j < |EmittedFrom(order)| ::
        |EmittedFrom(order)[j]| >= 2 && EmittedFrom(order)[j][0] == '-' && EmittedFrom(order)[j][1] == '-'
    {
      if order != [] {
        var front := order[..|order| - 1];
        var flag := order[|order| - 1];
        EmittedAreLong(front);
        var head, tail := EmittedFrom(front), Fragment(flag);
        assert EmittedFrom(order) == head + tail;
        forall j | 0 <= j < |head + tail|
          ensures |(head + tail)[j]| >= 2 && (head + tail)[j][0] == '-' && (head + tail)[j][1] == '-'
        {
          if j < |head| {
            assert (head + tail)[j] == head[j];
          } else if flag !in Bare {
            var t := tail[0];
            assert t == flag + "=" + ValueText(flag).value;
            assert t[0] == flag[0] && t[1] == flag[1];
          }
        }
      }
    }

    /** Generation never writes `-h`, only `--help`. */
    lemma HelpShortNeverEmitted()
      ensures HelpShort !in EmittedFrom(GenerationOrder)
    {
      GeneratedAreLong();
      EmittedAreLong(GenerationOrder);
      AllButHelpShortAreLong();
    }

    /** A bare flag is written exactly when it is in the order and `this[flag] == true`. */
    lemma {:induction false} BareEmitted(order: seq<string>, flag: string)
      requires flag in Bare
      ensures flag in EmittedFrom(order) <==> flag in order && IsSet(flag)
    {
      if order != [] {
        var front := order[..|order| - 1];
        var last := order[|order| - 1];
        BareEmitted(front, flag);
        assert order == front + [last];
        if last !in Bare && Fragment(last) != [] {
          BareHaveNoEquals();
          assert '=' in Fragment(last)[0];
        }
      }
    }

    /** A valued flag that is set and has a value to write is written as `flag=value`. */
    lemma {:induction false} ValuedEmitted(order: seq<string>, flag: string)
      requires flag in order && flag !in Bare && IsSet(flag) && ValueText(flag).Some?
      ensures flag + "=" + ValueText(flag).value in EmittedFrom(order)
    {
      var front := order[..|order| - 1];
      if flag in front {
        ValuedEmitted(front, flag);
      } else {
        assert order == front + [order[|order| - 1]];
      }
    }

    /**
     * Conversely, a `flag=t` token among those the blocks add comes from that
     * flag's own block: the flag is set, carries a value, and t is its text.
     */
    lemma {:induction false} EmittedNamesItsFlag(order: seq<string>, flag: string, t: string)
      requires forall k | 0 <= k < |order| :: '=' !in order[k]
      requires '=' !in flag
      requires flag + "=" + t in EmittedFrom(order)
      ensures flag in order && flag !in Bare && IsSet(flag) && ValueText(flag) == Some(t)
    {
      var front := order[..|order| - 1];
      var last := order[|order| - 1];
      assert EmittedFrom(order) == EmittedFrom(front) + Fragment(last);
      if flag + "=" + t in EmittedFrom(front) {
        EmittedNamesItsFlag(front, flag, t);
      } else {
        FirstEquals(flag, t);
        assert flag + "=" + t == Fragment(last)[0];
        AssignmentSplitsOnce(flag, t, last, ValueText(last).value);
      }
    }

    /** A `flag=t` token of the generated command line means the flag is set and t is the text it carries. */
    lemma WrittenOnlyWhenSet(flag: string, t: string)
      requires '=' !in flag
      requires flag + "=" + t in EmittedFrom(GenerationOrder)
      ensures IsSet(flag) && ValueText(flag) == Some(t)
    {
      AllHaveNoEquals();
      EmittedNamesItsFlag(GenerationOrder, flag, t);
    }

    /** A read size that is unset, zero or negative is not written at all. */
    lemma DumpReadSizeNotWrittenUnlessPositive(t: string)
      requires values.dumpReadSize.None? || values.dumpReadSize.value <= 0
      ensures DumpReadSize + "=" + t !in EmittedFrom(GenerationOrder)
    {
      OthersHaveNoEquals();
      if DumpReadSize + "=" + t in EmittedFrom(GenerationOrder) {
        WrittenOnlyWhenSet(DumpReadSize, t);
      }
    }

    /** Skip ranges that are unset or empty are not written at all. */
    lemma SkipNotWrittenWhenEmpty(t: string)
      requires values.skip.None? || values.skip.value == []
      ensures FlagStrings.Skip + "=" + t !in EmittedFrom(GenerationOrder)
    {
      OthersHaveNoEquals();
      if FlagStrings.Skip + "=" + t in EmittedFrom(GenerationOrder) {
        WrittenOnlyWhenSet(FlagStrings.Skip, t);
      }
    }

    /** A set integer flag is written as `flag=` and its decimal digits, which the 32-bit reader parses back. */
    lemma IntFlagReadsBack(flag: string)
      requires IsIntFlag(flag) && IsSet(flag) && IntField(flag).Some?
      ensures var text := DecimalString(IntField(flag).value as int);
              && flag + "=" + text in EmittedFrom(GenerationOrder)
              && AssignedValue(flag + "=" + text, flag) == Some(text)
              && TryParse(text, Int32) == Some(IntField(flag).value as int)
    {
      var text := DecimalString(IntField(flag).value as int);
      IntFlagIsNotBare(flag);
      IntFlagIsGenerated(flag);
      assert ValueText(flag) == Some(text);
      ValuedEmitted(GenerationOrder, flag);
      assert (flag + "=" + text)[|flag| + 1..] == text;
    }

    /** A set skip-fill byte is written as `--skip-fill=` and lowercase hex digits, which read back as the same byte in base 16. */
    lemma SkipFillWrittenInHex()
      requires IsSet(SkipFill) && values.skipFill.Some?
      ensures var text := LowerHex(values.skipFill.value as nat);
              && SkipFill + "=" + text in EmittedFrom(GenerationOrder)
              && HexValue(text) == values.skipFill.value as nat
    {
      SpecialValuedAreNotBare();
      AllButHelpShortGenerated();
      assert SkipFill in All;
      ValuedEmitted(GenerationOrder, SkipFill);
      LowerHexRoundTrip(values.skipFill.value as nat);
    }

    /** A set read size is written only when positive, as decimal digits the 32-bit reader parses back. */
    lemma DumpReadSizeWrittenWhenPositive()
      requires IsSet(DumpReadSize) && values.dumpReadSize.Some? && values.dumpReadSize.value > 0
      ensures var text := DecimalString(values.dumpReadSize.value as int);
              && DumpReadSize + "=" + text in EmittedFrom(GenerationOrder)
              && TryParse(text, Int32) == Some(values.dumpReadSize.value as int)
    {
      SpecialValuedAreNotBare();
      AllButHelpShortGenerated();
      assert DumpReadSize in All;
      ValuedEmitted(GenerationOrder, DumpReadSize);
    }

    /** A set drive is written as `--drive=`, quoted when it holds a space; stripping the quotes gives the drive back. */
    lemma DriveWrittenQuotedWhenSpaced(d: string)
      requires IsSet(Drive) && values.drive == Some(d)
      ensures ' ' in d ==> Drive + "=" + Quote(d) in EmittedFrom(GenerationOrder)
      ensures ' ' !in d ==> Drive + "=" + d in EmittedFrom(GenerationOrder)
      ensures ' ' in d && d[0] != '"' && d[|d| - 1] != '"' ==> TrimChar(Quote(d), '"') == d
    {
      SpecialValuedAreNotBare();
      AllButHelpShortGenerated();
      assert Drive in All;
      ValuedEmitted(GenerationOrder, Drive);
      if ' ' in d && d[0] != '"' && d[|d| - 1] != '"' {
        TrimQuoteWrapped(d);
      }
    }

    // ------------------------------------------------- parsing, defaults and reset

    /**
     * Parsing a parameter string. Missing or empty text fails at once. The
     * tokens then start with a run of mode words, which become the modes; the
     * first other token must look like a flag, or parsing fails. From there
     * every token is offered to every reader in turn (unknown tokens are
     * skipped), and an image name that is still unset or empty becomes
     * `track`.
     */
    method ValidateAndSetParameters(parameters: Option<string>) returns (ok: bool)
      modifies this`BaseCommand, this`flags, this`ModeValues, this`values
      ensures BaseCommand == Some(CommandStrings.NONE)
      ensures parameters.None? || parameters == Some([]) ==> !ok && ModeValues == old(ModeValues)
      ensures parameters.Some? && parameters.value != [] ==>
                var parts := Tokenize(parameters.value);
                var n := ModeRunLength(parts);
                && ModeValues == Some(parts[..n])
                && (ok <==> n == |parts| || StartsWith(parts[n], "-"))
      ensures !ok ==> flags == old(flags) && values == old(values)
      ensures ok ==> MarksOnly(old(flags), flags, Parsed) && Evolves(old(values), values)
      ensures ok ==> values.imageName.Some? && values.imageName.value != []
      ensures ok ==> var parts := Tokenize(parameters.value);
                     var r := Sweep(parts, State(ModeRunLength(parts), old(flags), old(values)), Readers, Table);
                     flags == r.marks && values == WithDefaultImageName(r.values)
      ensures parameters.Some? && parameters.value != [] && (forall i | 0 <= i < |parameters.value| :: IsWhiteSpace(parameters.value[i]))
              ==> ok && flags == old(flags) && ModeValues == Some([])
      ensures parameters.Some? && parameters.value != [] ==>
                var parts := Tokenize(parameters.value);
                var n := ModeRunLength(parts);
                (forall j | n <= j < |parts| :: parts[j] in BareTokens) ==>
                  && ok
                  && MarksOnly(old(flags), flags, MarkedBy(parts[n..]))
                  && (forall k | k in MarkedBy(parts[n..]) :: Marked(flags, k))
                  && values == WithDefaultImageName(old(values))
      ensures parameters.Some? && parameters.value != [] ==>
                var parts := Tokenize(parameters.value);
                var n := ModeRunLength(parts);
                ok && (forall j | n <= j < |parts| :: InPlace(parts[j])) ==>
                  && MarksOnly(old(flags), flags, MarkedBy(parts[n..]))
                  && (forall k | k in MarkedBy(parts[n..]) :: Marked(flags, k))
                  && values == WithDefaultImageName(StoredBy(parts[n..], old(values)))
    {
      BaseCommand := Some(CommandStrings.NONE);
      if parameters.None? || parameters.value == [] {
        return false;
      }
      if forall i | 0 <= i < |parameters.value| :: IsWhiteSpace(parameters.value[i]) {
        BlankTokenizesToNothing(parameters.value);
      }
      var parts := Tokenize(parameters.value);
      var modes, f, v;
      modes, ok, f, v := ParseTokens(parts, flags, values);
      ModeValues := Some(modes);
      flags, values := f, v;
    }

    /** Clears the command, the presence map and the value fields, except the write offset and the lead-in retries; the modes stay. */
    method ResetValues()
      modifies this`BaseCommand, this`flags, this`values
      ensures BaseCommand == Some(CommandStrings.NONE) && flags == map[]
      ensures values == NoValues.(dumpWriteOffset := old(values).dumpWriteOffset,
                                      plextorLeadinRetries := old(values).plextorLeadinRetries)
    {
      BaseCommand := Some(CommandStrings.NONE);
      flags := map[];
      values := NoValues.(dumpWriteOffset := values.dumpWriteOffset, plextorLeadinRetries := values.plextorLeadinRetries);
    }

    /** With no flag set, the flag blocks add nothing: after a reset, generation writes the modes alone. */
    lemma {:induction false} NothingSetEmitsNothing(order: seq<string>)
      requires flags == map[]
      ensures EmittedFrom(order) == []
    {
      if order != [] {
        NothingSetEmitsNothing(order[..|order| - 1]);
      }
    }

    /**
     * Defaults for dumping a disc: nothing for a media type redumper cannot
     * dump; otherwise the mode for the media type, the drive and speed as
     * given, the user's settings, the output directory and name quoted, and
     * the retry counts, each with its flag turned on.
     */
    method SetDefaultParameters(drivePath: Option<string>, filename: string, driveSpeed: Option<int32>, options: Options)
      modifies this`BaseCommand, this`flags, this`ModeValues, this`values
      ensures !Dumpable(Type) ==> BaseCommand == old(BaseCommand) && ModeValues == old(ModeValues)
                                  && flags == old(flags) && values == old(values)
      ensures Dumpable(Type) ==>
                && BaseCommand == Some(CommandStrings.NONE)
                && ModeValues == Some([DefaultMode(Type.value, System)])
                && var p := ReadPreferences(options);
                   var directory, name := OutputDirectory(filename), OutputName(filename);
                   && flags == old(flags) + TurnedOn(DefaultedKeys(p, directory, name))
                   && MarksOnly(old(flags), flags, DefaultedKeys(p, directory, name))
                   && values == DefaultedValues(old(values), drivePath, driveSpeed, p, directory, name)
    {
      if !Dumpable(Type) {
        return;
      }
      BaseCommand := Some(CommandStrings.NONE);
      ModeValues := Some([DefaultMode(Type.value, System)]);
      var p := ReadPreferences(options);
      var directory, name := OutputDirectory(filename), OutputName(filename);
      var keys := DefaultedKeys(p, directory, name);
      TurnOnMarks(flags, keys, Drive);
      flags := flags + TurnedOn(keys);
      values := DefaultedValues(values, drivePath, driveSpeed, p, directory, name);
    }
  }
}
