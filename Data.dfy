/**
 * The typed flag inputs: each one recognises its flag name at a cursor
 * position in the token list, tries to read the value token after it, stores
 * what it read in `Value`, and returns whether the flag was accepted together
 * with the new cursor (the C# `ref int index`).
 */
module Data {
  import opened Wrappers
  import opened Strings
  import opened Numeric
  import opened Tokenizer

  /** `Input<T>.DoesExist`: index lies inside parts and the token there is not empty. */
  predicate DoesExist(parts: seq<string>, index: int)
    ensures DoesExist(parts, index) ==> 0 <= index < |parts| && parts[index] != []
  {
    0 <= index < |parts| && |parts[index]| > 0
  }

  /**
   * The scalar inputs' name test: the token is rejected only when it differs
   * from the short name AND a long name exists AND it differs from that too.
   */
  function NameMismatch(token: string, name: string, longName: Option<string>): (r: bool)
    ensures r ==> token != name
    ensures longName.None? ==> !r
    ensures longName.Some? && token == longName.value ==> !r
    ensures longName.Some? && token != name && token != longName.value ==> r
  {
    token != name && (longName.Some? && token != longName.value)
  }

  /** A flag that may be followed by a `true`/`false` literal. */
  class BooleanInput {
    const Name: string
    const LongName: Option<string>
    const Required: bool
    var Value: Option<bool>

    constructor (name: string, longName: Option<string>, required: bool)
      ensures Name == name && LongName == longName && Required == required && Value == None
    {
      Name := name;
      LongName := longName;
      Required := required;
      Value := None;
    }

    /**
     * Out of range or a name mismatch: false, nothing changes. No literal
     * after the flag: `Value` becomes present (or none when required), the
     * cursor stays, the result is `!Required`. A literal: the cursor moves onto
     * it and the literal is the result, while `Value` is left as it was.
     */
    method Process(parts: seq<string>, index: int) returns (matched: bool, next: int)
      modifies this`Value
      ensures (index < 0 || index >= |parts|) ==> !matched && next == index && Value == old(Value)
      ensures 0 <= index < |parts| && NameMismatch(parts[index], Name, LongName)
              ==> !matched && next == index && Value == old(Value)
      ensures 0 <= index < |parts| && !NameMismatch(parts[index], Name, LongName)
              && (!DoesExist(parts, index + 1) || TryParseBool(parts[index + 1]).None?)
              ==> matched == !Required && next == index && Value == (if Required then None else Some(true))
      ensures 0 <= index < |parts| && !NameMismatch(parts[index], Name, LongName)
              && DoesExist(parts, index + 1) && TryParseBool(parts[index + 1]).Some?
              ==> matched == TryParseBool(parts[index + 1]).value && next == index + 1 && Value == old(Value)
    {
      next := index;
      if |parts| == 0 {
        return false, next;
      }
      if index < 0 || index >= |parts| {
        return false, next;
      }
      if NameMismatch(parts[index], Name, LongName) {
        return false, next;
      }
      if !DoesExist(parts, index + 1) {
        Value := if Required then None else Some(true);
        return !Required, next;
      }
      var literal := TryParseBool(parts[index + 1]);
      if literal.None? {
        Value := if Required then None else Some(true);
        return !Required, next;
      }
      next := next + 1;
      return literal.value, next;
    }
  }

  /** An unsigned 32-bit flag: decimal, then unit-suffixed decimal, then hex; 0 stands for "absent". */
  class UInt32Input {
    const Name: string
    const LongName: Option<string>
    const Required: bool
    var Value: Option<uint32>

    constructor (name: string, longName: Option<string>, required: bool)
      ensures Name == name && LongName == longName && Required == required && Value == None
    {
      Name := name;
      LongName := longName;
      Required := required;
      Value := None;
    }

    /**
     * Out of range or a name mismatch: false, nothing changes. A value the
     * staged parse reads: it is stored, the cursor moves onto it, true. A
     * missing or unreadable value: 0 (none when required), the cursor stays,
     * `!Required`.
     */
    method Process(parts: seq<string>, index: int) returns (matched: bool, next: int)
      modifies this`Value
      ensures (index < 0 || index >= |parts|) ==> !matched && next == index && Value == old(Value)
      ensures 0 <= index < |parts| && NameMismatch(parts[index], Name, LongName)
              ==> !matched && next == index && Value == old(Value)
      ensures 0 <= index < |parts| && !NameMismatch(parts[index], Name, LongName)
              && (!DoesExist(parts, index + 1) || ParseStaged(parts[index + 1], UInt32).None?)
              ==> matched == !Required && next == index && Value == (if Required then None else Some(0))
      ensures 0 <= index < |parts| && !NameMismatch(parts[index], Name, LongName)
              && DoesExist(parts, index + 1) && ParseStaged(parts[index + 1], UInt32).Some?
              ==> matched && next == index + 1 && Value == Some(ParseStaged(parts[index + 1], UInt32).value as uint32)
    {
      next := index;
      if |parts| == 0 {
        return false, next;
      }
      if index < 0 || index >= |parts| {
        return false, next;
      }
      if NameMismatch(parts[index], Name, LongName) {
        return false, next;
      }
      if !DoesExist(parts, index + 1) {
        Value := if Required then None else Some(0);
        return !Required, next;
      }
      var token := parts[index + 1];
      var plain := TryParse(token, UInt32);
      if plain.Some? {
        next := next + 1;
        Value := Some(plain.value as uint32);
        return true, next;
      }
      var (baseVal, factor) := ExtractFactorFromValue(token);
      var scaled := TryParse(baseVal, UInt32);
      if scaled.Some? {
        next := next + 1;
        Value := Some(Truncate(scaled.value * factor, UInt32) as uint32);
        return true, next;
      }
      var hex := TryParseHex(RemoveHexIdentifier(baseVal), UInt32);
      if hex.Some? {
        next := next + 1;
        Value := Some(Truncate(hex.value * factor, UInt32) as uint32);
        return true, next;
      }
      Value := if Required then None else Some(0);
      return !Required, next;
    }
  }

  /** A signed 8-bit flag: the same three stages as `UInt32Input`; -128 stands for "absent". */
  class Int8Input {
    const Name: string
    const LongName: Option<string>
    const Required: bool
    var Value: Option<int8>

    constructor (name: string, longName: Option<string>, required: bool)
      ensures Name == name && LongName == longName && Required == required && Value == None
    {
      Name := name;
      LongName := longName;
      Required := required;
      Value := None;
    }

    /** As `UInt32Input.Process`, narrowing to a signed byte and with -128 as the optional default. */
    method Process(parts: seq<string>, index: int) returns (matched: bool, next: int)
      modifies this`Value
      ensures (index < 0 || index >= |parts|) ==> !matched && next == index && Value == old(Value)
      ensures 0 <= index < |parts| && NameMismatch(parts[index], Name, LongName)
              ==> !matched && next == index && Value == old(Value)
      ensures 0 <= index < |parts| && !NameMismatch(parts[index], Name, LongName)
              && (!DoesExist(parts, index + 1) || ParseStaged(parts[index + 1], SByte).None?)
              ==> matched == !Required && next == index && Value == (if Required then None else Some(SByteMinValue))
      ensures 0 <= index < |parts| && !NameMismatch(parts[index], Name, LongName)
              && DoesExist(parts, index + 1) && ParseStaged(parts[index + 1], SByte).Some?
              ==> matched && next == index + 1 && Value == Some(ParseStaged(parts[index + 1], SByte).value as int8)
    {
      next := index;
      if |parts| == 0 {
        return false, next;
      }
      if index < 0 || index >= |parts| {
        return false, next;
      }
      if NameMismatch(parts[index], Name, LongName) {
        return false, next;
      }
      if !DoesExist(parts, index + 1) {
        Value := if Required then None else Some(SByteMinValue);
        return !Required, next;
      }
      var token := parts[index + 1];
      var plain := TryParse(token, SByte);
      if plain.Some? {
        next := next + 1;
        Value := Some(plain.value as int8);
        return true, next;
      }
      var (baseVal, factor) := ExtractFactorFromValue(token);
      var scaled := TryParse(baseVal, SByte);
      if scaled.Some? {
        next := next + 1;
        Value := Some(Truncate(scaled.value * factor, SByte) as int8);
        return true, next;
      }
      var hex := TryParseHex(RemoveHexIdentifier(baseVal), SByte);
      if hex.Some? {
        next := next + 1;
        Value := Some(Truncate(hex.value * factor, SByte) as int8);
        return true, next;
      }
      Value := if Required then None else Some(SByteMinValue);
      return !Required, next;
    }
  }

  /** `Int32ArrInput.ParseValue`: the staged parse at 32-bit width. */
  function ParseValue(str: string): (r: Option<int32>)
    ensures r.Some? <==> ParseStaged(str, Int32).Some?
    ensures r.Some? ==> r.value as int == ParseStaged(str, Int32).value
  {
    match ParseStaged(str, Int32)
    case Some(v) => Some(v as int32)
    case None => None
  }

  /** What `ParseValue` makes of each token, position by position. */
  function ParseEach(tokens: seq<string>): (r: seq<Option<int32>>)
    ensures |r| == |tokens|
  {
    seq(|tokens|, j requires 0 <= j < |tokens| => ParseValue(tokens[j]))
  }

  /**
   * How many of the (at most size) leading parse results are values, counted
   * up to the first token that is missing or does not parse: given the tokens
   * after the flag, the number of slots an array input fills.
   */
  function ParsedRun(results: seq<Option<int32>>, size: nat): (k: nat)
    ensures k <= size && k <= |results|
    ensures forall r | r in results[..k] :: r.Some?
    ensures k < size ==> k == |results| || results[k].None?
    decreases size
  {
    if size == 0 then 0
    else if |results| > 0 && results[0].Some? then
      var n := ParsedRun(results[1..], size - 1);
      assert results[..1 + n] == [results[0]] + results[1..][..n];
      1 + n
    else 0
  }

  /** The text an array input writes: its name, a separator, then the present elements in decimal, space-separated. */
  function FormatValues(name: string, values: seq<Option<int32>>, useEquals: bool): (r: string)
    ensures |r| > |name| && r[..|name|] == name
    ensures r[|name|] == if useEquals then '=' else ' '
    ensures |r| == |name| + 1 <==> Present(values) == []
    ensures Matches(r[|name| + 1..]) == Rendered(values)
  {
    var elements := JoinSpace(Rendered(values));
    JoinedWordsRoundTrip(Rendered(values));
    RenderedParsesBack(values);
    var r := name + (if useEquals then "=" else " ") + elements;
    assert r[|name| + 1..] == elements;
    r
  }

  /** The present elements, in order, rendered in decimal. */
  function Rendered(values: seq<Option<int32>>): (r: seq<string>)
    ensures |r| <= |values|
    ensures forall w | w in r :: |w| > 0 && ' ' !in w && '"' !in w
  {
    if |values| == 0 then []
    else (if values[0].Some? then [DecimalString(values[0].value as int)] else []) + Rendered(values[1..])
  }

  /** The present elements, in order. */
  function Present(values: seq<Option<int32>>): (r: seq<int32>)
    ensures |r| <= |values|
  {
    if |values| == 0 then []
    else (if values[0].Some? then [values[0].value] else []) + Present(values[1..])
  }

  /** Each rendered element reads back, through the same parse `Process` uses, as the element it came from. */
  lemma {:induction false} RenderedParsesBack(values: seq<Option<int32>>)
    ensures |Rendered(values)| == |Present(values)|
    ensures forall j | 0 <= j < |Rendered(values)| :: ParseValue(Rendered(values)[j]) == Some(Present(values)[j])
  {
    if |values| > 0 {
      RenderedParsesBack(values[1..]);
      if values[0].Some? {
        StagedRoundTrip(values[0].value as int, Int32);
      }
    }
  }

  /**
   * Formatting with a space separator and splitting the text again gives the
   * name followed by one token per present element, each of which parses back
   * to that element.
   */
  lemma FormatRoundTrip(name: string, values: seq<Option<int32>>)
    requires |name| > 0 && ' ' !in name && '"' !in name
    requires Present(values) != []
    ensures |Rendered(values)| == |Present(values)|
    ensures Matches(FormatValues(name, values, false)) == [name] + Rendered(values)
    ensures forall j | 0 <= j < |Present(values)| :: ParseValue(Matches(FormatValues(name, values, false))[j + 1]) == Some(Present(values)[j])
  {
    RenderedParsesBack(values);
    assert FormatValues(name, values, false) == JoinSpace([name] + Rendered(values)) by {
      assert Rendered(values) != [];
      assert ([name] + Rendered(values))[1..] == Rendered(values);
    }
    JoinedWordsRoundTrip([name] + Rendered(values));
  }

  /**
   * With either separator, the text after the name and separator splits into
   * one token per present element, each parsing back to that element; with no
   * element present the text is the name and the separator alone.
   */
  lemma FormatReadsBack(name: string, values: seq<Option<int32>>, useEquals: bool)
    ensures var r := FormatValues(name, values, useEquals);
      |Matches(r[|name| + 1..])| == |Present(values)| &&
      forall j | 0 <= j < |Present(values)| :: ParseValue(Matches(r[|name| + 1..])[j]) == Some(Present(values)[j])
    ensures Present(values) == [] ==> FormatValues(name, values, useEquals) == name + (if useEquals then "=" else " ")
  {
    RenderedParsesBack(values);
    var r := FormatValues(name, values, useEquals);
    if Present(values) == [] {
      assert r == r[..|name|] + [r[|name|]];
    }
  }

  /**
   * The slot loop of `Int32ArrInput.Process`, over the tokens after the flag:
   * fills slots from the front while tokens parse, and stops at the first one
   * that is missing or does not, writing the sentinel (or none) there.
   */
  method FillSlots(slots: array<Option<int32>>, tokens: seq<string>, required: bool, ghost results: seq<Option<int32>>)
    returns (matched: bool, filled: nat)
    requires |results| == |tokens|
    requires forall j {:trigger ParseValue(tokens[j])} | 0 <= j < |tokens| :: results[j] == ParseValue(tokens[j])
    requires forall j | 0 <= j < slots.Length :: slots[j] == None
    modifies slots
    ensures filled == ParsedRun(results, slots.Length)
    ensures forall j | 0 <= j < filled :: slots[j] == results[j]
    ensures filled == slots.Length ==> matched
    ensures filled < slots.Length ==> matched == !required && slots[filled] == (if required then None else Some(Int32MinValue))
    ensures forall j | filled < j < slots.Length :: slots[j] == None
  {
    ghost var k := ParsedRun(results, slots.Length);
    var i := 0;
    while i < slots.Length
      invariant 0 <= i <= k
      invariant forall j | 0 <= j < i :: slots[j] == results[j]
      invariant forall j | i <= j < slots.Length :: slots[j] == None
    {
      if i >= |tokens| {
        slots[i] := if required then None else Some(Int32MinValue);
        return !required, i;
      }
      var value := ParseValue(tokens[i]);
      if value.Some? {
        slots[i] := value;
        i := i + 1;
        continue;
      }
      assert results[i] in results[..k] || i == k;
      slots[i] := if required then None else Some(Int32MinValue);
      return !required, i;
    }
    return true, i;
  }

  /** A flag followed by a fixed number of integers; `_altNames` are further spellings of the name. */
  class Int32ArrInput {
    const Name: string
    const AltNames: seq<string>
    const Required: bool
    const Size: nat
    var Value: array?<Option<int32>>

    constructor (name: string, altNames: seq<string>, required: bool, size: nat)
      ensures Name == name && AltNames == altNames && Required == required && Size == size && Value == null
    {
      Name := name;
      AltNames := altNames;
      Required := required;
      Size := size;
      Value := null;
    }

    /** `Format`: nothing when there is no array, otherwise the name, a separator and the present elements. */
    function Format(useEquals: bool): (r: string)
      reads this, Value
      ensures Value == null ==> r == []
      ensures Value != null ==> |r| > |Name| && r[..|Name|] == Name && r[|Name|] == if useEquals then '=' else ' '
      ensures Value != null ==> (|r| == |Name| + 1 <==> Present(Value[..]) == [])
      ensures Value != null ==> Matches(r[|Name| + 1..]) == Rendered(Value[..])
    {
      if Value == null then "" else FormatValues(Name, Value[..], useEquals)
    }

    /** Whether the token is the name or one of the alternative names. */
    predicate Names(token: string) {
      token == Name || token in AltNames
    }

    /**
     * Out of range or no name match: false, nothing changes. Otherwise a fresh
     * array of `Size` slots; the first `ParsedRun` slots hold the parsed values
     * and the cursor moves past them; if the run stops early, the slot where it
     * stopped gets -2^31 (none when required), the later slots stay empty, and
     * the result is `!Required`; a full run returns true.
     */
    method Process(parts: seq<string>, index: int) returns (matched: bool, next: int)
      modifies this`Value
      ensures !(0 <= index < |parts| && Names(parts[index])) ==> !matched && next == index && Value == old(Value)
      ensures 0 <= index < |parts| && Names(parts[index]) ==>
        var tokens := parts[index + 1..];
        var k := ParsedRun(ParseEach(tokens), Size);
        && Value != null && fresh(Value) && Value.Length == Size
        && next == index + k
        && (forall j | 0 <= j < k :: Value[j] == ParseValue(tokens[j]))
        && (k == Size ==> matched)
        && (k < Size ==> matched == !Required && Value[k] == (if Required then None else Some(Int32MinValue)))
        && (forall j | k < j < Size :: Value[j] == None)
    {
      next := index;
      if index < 0 || index >= |parts| {
        return false, next;
      }
      var part := parts[index];
      if part == Name || (|AltNames| > 0 && part in AltNames) {
        var slots := new Option<int32>[Size](_ => None);
        Value := slots;
        var filled;
        matched, filled := FillSlots(slots, parts[index + 1..], Required, ParseEach(parts[index + 1..]));
        next := index + filled;
        return matched, next;
      }
      return false, next;
    }
  }
}
