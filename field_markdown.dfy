/**
  The "markdown" field type of the record store: a text column holding
  Markdown, with a configurable byte ceiling and a required flag. Its
  identity and flags are updated in place through setters; its value check,
  settings check and body-size ceiling are pure functions of its fields.
 */
module FieldMarkdown {

  import opened Validation

  newtype byte = x: int | 0 <= x < 0x100

  /** The signed 64-bit integers that hold the configured ceiling. */
  type int64 = x: int | -0x8000_0000_0000_0000 <= x < 0x8000_0000_0000_0000

  /** The key under which the field type is registered and persisted. */
  const FieldTypeMarkdown: string := "markdown"

  /** The ceiling used when none is configured: 5 << 20 bytes (5 MiB). */
  const DefaultMarkdownFieldMaxSize: int64 := 0x50_0000

  /** The largest integer a JSON number carries exactly: 2^53 - 1. */
  const MaxSafeJSONInt: int64 := 0x1F_FFFF_FFFF_FFFF

  /** The storage column declared for the field: non-null text, empty by default. */
  const MarkdownColumnType: string := "TEXT DEFAULT '' NOT NULL"

  /** A record's raw value for the field, before or after preparation. A Go
      string is a sequence of bytes, and its length is counted in bytes. */
  datatype RawValue =
    | RawStr(bytes: seq<byte>)
    | RawInt(i: int)
    | RawBool(b: bool)
    | RawNil
    | RawOther

  /** The errors a value check reports. ContentSizeLimit carries the code
      "validation_content_size_limit" and the parameter maxSize. */
  datatype ValueError =
    | UnsupportedValueType
    | ValueRequired
    | ContentSizeLimit(maxSize: int64)

  class MarkdownField {
    var Name: string
    var Id: string
    var System: bool
    var Hidden: bool
    var Presentable: bool
    /** The configured ceiling in bytes; zero or less means the default. */
    var MaxSize: int64
    /** Whether the value must be a non-empty string. */
    var Required: bool

    /** The instance the field registry creates for the "markdown" type:
        every attribute is zero-valued, so the default ceiling applies. */
    constructor ()
      ensures Name == "" && Id == ""
      ensures !System && !Hidden && !Presentable && !Required
      ensures MaxSize == 0
      ensures CalculateMaxBodySize() == DefaultMarkdownFieldMaxSize
    {
      Name := "";
      Id := "";
      System := false;
      Hidden := false;
      Presentable := false;
      MaxSize := 0;
      Required := false;
    }

    /** The registry key of this field kind, whatever the field's state. */
    function Type(): (t: string)
      ensures t == "markdown"
    {
      FieldTypeMarkdown
    }

    /** The storage column of this field kind, whatever the field's state. */
    function ColumnType(): (c: string)
      ensures c == "TEXT DEFAULT '' NOT NULL"
    {
      MarkdownColumnType
    }

    /** The field's current Id. */
    function GetId(): (id: string)
      reads this
      ensures id == Id
    {
      Id
    }

    /** The field's current Name. */
    function GetName(): (name: string)
      reads this
      ensures name == Name
    {
      Name
    }

    /** The field's current System flag. */
    function GetSystem(): (system: bool)
      reads this
      ensures system == System
    {
      System
    }

    /** The field's current Hidden flag. */
    function GetHidden(): (hidden: bool)
      reads this
      ensures hidden == Hidden
    {
      Hidden
    }

    method SetId(id: string)
      modifies this
      ensures GetId() == id
      ensures Name == old(Name) && System == old(System) && Hidden == old(Hidden)
      ensures Presentable == old(Presentable) && MaxSize == old(MaxSize) && Required == old(Required)
    {
      Id := id;
    }

    method SetName(name: string)
      modifies this
      ensures GetName() == name
      ensures Id == old(Id) && System == old(System) && Hidden == old(Hidden)
      ensures Presentable == old(Presentable) && MaxSize == old(MaxSize) && Required == old(Required)
    {
      Name := name;
    }

    method SetSystem(system: bool)
      modifies this
      ensures GetSystem() == system
      ensures Name == old(Name) && Id == old(Id) && Hidden == old(Hidden)
      ensures Presentable == old(Presentable) && MaxSize == old(MaxSize) && Required == old(Required)
    {
      System := system;
    }

    method SetHidden(hidden: bool)
      modifies this
      ensures GetHidden() == hidden
      ensures Name == old(Name) && Id == old(Id) && System == old(System)
      ensures Presentable == old(Presentable) && MaxSize == old(MaxSize) && Required == old(Required)
    {
      Hidden := hidden;
    }

    /** The effective byte ceiling: the default when MaxSize is zero or
        negative, MaxSize itself otherwise. It is always positive. */
    function CalculateMaxBodySize(): (m: int64)
      reads this
      ensures MaxSize <= 0 ==> m == DefaultMarkdownFieldMaxSize
      ensures MaxSize > 0 ==> m == MaxSize
      ensures m > 0 && m >= MaxSize
    {
      if MaxSize <= 0 then DefaultMarkdownFieldMaxSize else MaxSize
    }

    /** Coerces any raw value to a string. The coercion itself belongs to a
        library outside this model and is passed in as toString; the result
        is always a string and never an error. */
    function PrepareValue(raw: RawValue, toString: RawValue -> seq<byte>): (r: RawValue)
      ensures r.RawStr?
    {
      RawStr(toString(raw))
    }

    /** Checks the record's raw value in a fixed order, stopping at the first
        failure: the type (only a string is accepted), then the required flag
        (an empty string is refused), then the resolved ceiling. */
    function ValidateValue(raw: RawValue): (r: Option<ValueError>)
      reads this
      ensures !raw.RawStr? ==> r == Some(UnsupportedValueType)
      ensures r == Some(ValueRequired) <==> raw.RawStr? && Required && |raw.bytes| == 0
      ensures r.Some? && r.value.ContentSizeLimit? <==>
        raw.RawStr? && !(Required && |raw.bytes| == 0) && |raw.bytes| > CalculateMaxBodySize()
      ensures r.Some? && r.value.ContentSizeLimit? ==> r.value.maxSize == CalculateMaxBodySize()
      ensures r.None? <==>
        raw.RawStr? && (!Required || |raw.bytes| > 0) && |raw.bytes| <= CalculateMaxBodySize()
    {
      if !raw.RawStr? then Some(UnsupportedValueType)
      else if Required && |raw.bytes| == 0 then Some(ValueRequired)
      else
        var maxSize := CalculateMaxBodySize();
        if |raw.bytes| > maxSize then Some(ContentSizeLimit(maxSize))
        else None
    }

    /** The attributes the settings check visits, each with its rules: the Id
        and Name shape rules, and MaxSize within [0, 2^53 - 1]. */
    function SettingsRules(idRule: string -> bool, nameRule: string -> bool): seq<AttrRules>
      reads this
    {
      [ AttrRules("id", Str(Id), [By((v: AttrValue) => v.Str? && idRule(v.s))]),
        AttrRules("name", Str(Name), [By((v: AttrValue) => v.Str? && nameRule(v.s))]),
        AttrRules("maxSize", Int(MaxSize), [Min(0), Max(MaxSafeJSONInt)]) ]
    }

    /** Checks the field's own configuration and reports every failing
        attribute by key. The Id and Name shape rules are defined outside
        this model and are passed in. MaxSize fails exactly when it lies
        outside [0, 2^53 - 1], whatever the flags and Required are. */
    function ValidateSettings(idRule: string -> bool, nameRule: string -> bool): (errs: map<string, RuleError>)
      reads this
      ensures "id" in errs <==> !idRule(Id)
      ensures "name" in errs <==> !nameRule(Name)
      ensures "maxSize" in errs <==> !(0 <= MaxSize <= MaxSafeJSONInt)
      ensures "maxSize" in errs ==>
        errs["maxSize"] == (if MaxSize < 0 then LessThanMin(0) else GreaterThanMax(MaxSafeJSONInt))
      ensures "id" in errs ==> errs["id"] == CustomRuleFailed
      ensures "name" in errs ==> errs["name"] == CustomRuleFailed
      ensures errs.Keys <= {"id", "name", "maxSize"}
    {
      var attrs := SettingsRules(idRule, nameRule);
      assert attrs[0].key == "id" && attrs[1].key == "name" && attrs[2].key == "maxSize";
      var sizeRules := attrs[2].rules;
      var size := attrs[2].value;
      assert sizeRules[1..] == [Max(MaxSafeJSONInt)] && sizeRules[1..][1..] == [];
      assert FirstFailure(sizeRules[1..], size) ==
        if MaxSize > MaxSafeJSONInt then Some(GreaterThanMax(MaxSafeJSONInt)) else None;
      assert Outcome(attrs[2]) ==
        if MaxSize < 0 then Some(LessThanMin(0))
        else if MaxSize > MaxSafeJSONInt then Some(GreaterThanMax(MaxSafeJSONInt))
        else None;
      assert attrs[..2][..1] == attrs[..1] && attrs[..1][..0] == [];
      assert Keys(attrs[..1]) == {"id"};
      assert Keys(attrs[..2]) == {"id", "name"};
      assert Keys(attrs) == {"id", "name", "maxSize"};
      ValidateStructReportsEveryFailure(attrs);
      ValidateStruct(attrs)
    }
  }

  /** Preparing a value before checking it rules out the type error, so the
      defensive type check cannot fire on a prepared value. */
  lemma PreparedValueHasSupportedType(f: MarkdownField, raw: RawValue, toString: RawValue -> seq<byte>)
    ensures f.ValidateValue(f.PrepareValue(raw, toString)) != Some(UnsupportedValueType)
  {
  }

  /** A wrong-typed value reports the type error for every configuration:
      the type check comes first and masks the required and size checks. */
  lemma TypeErrorMasksConfiguration(f: MarkdownField, g: MarkdownField, raw: RawValue)
    requires !raw.RawStr?
    ensures f.ValidateValue(raw) == g.ValidateValue(raw) == Some(UnsupportedValueType)
  {
  }

  /** The required check and the size check never both fail, because the
      ceiling is positive: their relative order only decides which of two
      disjoint errors is named. In particular an empty string is never too
      large. */
  lemma RequiredAndSizeFailuresDisjoint(f: MarkdownField)
    ensures f.ValidateValue(RawStr([])) == (if f.Required then Some(ValueRequired) else None)
  {
  }

  /** A string that passes keeps passing when it is replaced by a string no
      longer than it, unless the replacement is empty and the field is
      required. */
  lemma ShorterValueStillPasses(f: MarkdownField, long: seq<byte>, short: seq<byte>)
    requires f.ValidateValue(RawStr(long)).None?
    requires |short| <= |long|
    requires !f.Required || |short| > 0
    ensures f.ValidateValue(RawStr(short)).None?
  {
  }

  /** A configuration the settings check accepts resolves to a ceiling in
      (0, 2^53 - 1], so the ceiling itself is a JSON-safe positive integer. */
  lemma AcceptedSettingsBoundCeiling(f: MarkdownField, idRule: string -> bool, nameRule: string -> bool)
    requires "maxSize" !in f.ValidateSettings(idRule, nameRule)
    ensures 0 < f.CalculateMaxBodySize() <= MaxSafeJSONInt
  {
  }

  /** The settings check depends on Id, Name and MaxSize only: changing the
      flags or Required never changes what it reports. */
  lemma SettingsIgnoreFlags(f: MarkdownField, g: MarkdownField, idRule: string -> bool, nameRule: string -> bool)
    requires f.Id == g.Id && f.Name == g.Name && f.MaxSize == g.MaxSize
    ensures f.ValidateSettings(idRule, nameRule) == g.ValidateSettings(idRule, nameRule)
  {
  }

  /** MaxSize = 0 with Required set: the empty string is refused as missing. */
  lemma ScenarioRequiredEmpty(f: MarkdownField)
    requires f.MaxSize == 0 && f.Required
    ensures f.ValidateValue(RawStr([])) == Some(ValueRequired)
  {
  }

  /** MaxSize = 10: a 5-byte string passes and a 12-byte string is refused
      with maxSize = 10. */
  lemma ScenarioTenByteCeiling(f: MarkdownField)
    requires f.MaxSize == 10
    ensures f.ValidateValue(RawStr([104, 101, 108, 108, 111])).None?
    ensures f.ValidateValue(RawStr([104, 101, 108, 108, 111, 32, 119, 111, 114, 108, 100, 33]))
      == Some(ContentSizeLimit(10))
  {
  }
}
