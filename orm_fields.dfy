/**
 * Field descriptors of the mapping layer (lib/orm_classes.py: Field and its
 * subclasses IntegerField, CharField, FloatField, ForeignKey) and the
 * per-value check an instance runs when it is constructed (validate_field).
 */
module OrmFields {
  import opened Wrappers
  import opened Text
  import opened Values

  /** What the mapping layer raises. */
  datatype OrmError =
    | AttributeError(name: string)  // unknown attribute, or an attribute looked up on None
    | ValueError(field: string)     // a value outside its declared constraints
    | TypeError(field: string)      // an operation applied to the wrong kind of value
    | UnpackNone                    // unpacking the None that execute_query returns after a store error

  /** Which Field subclass a descriptor is; a CharField also keeps its max_length. */
  datatype Kind = IntegerKind | CharKind(maxLength: int) | FloatKind | ForeignKeyKind

  /**
   * One column: its SQL type text, primary-key flag, foreign-key target
   * (None when absent) and keyword constraints such as min_value or words_count.
   */
  datatype Field = Field(
    kind: Kind,
    fieldType: string,
    primaryKey: bool,
    foreignKey: Option<string>,
    constraints: map<string, Value>)

  /** IntegerField(primary_key, foreign_key, min_value, max_value) */
  function IntegerField(primaryKey: bool, foreignKey: Option<string>, minValue: Value, maxValue: Value): Field {
    Field(IntegerKind, "INTEGER", primaryKey, foreignKey, map["min_value" := minValue, "max_value" := maxValue])
  }

  /** CharField(max_length, primary_key, foreign_key, **constraints) */
  function CharField(maxLength: int, primaryKey: bool, foreignKey: Option<string>, constraints: map<string, Value>): Field {
    Field(CharKind(maxLength), "VARCHAR(" + IntToString(maxLength) + ")", primaryKey, foreignKey, constraints)
  }

  /** FloatField(primary_key, foreign_key, min_value, max_value) */
  function FloatField(primaryKey: bool, foreignKey: Option<string>, minValue: Value, maxValue: Value): Field {
    Field(FloatKind, "FLOAT", primaryKey, foreignKey, map["min_value" := minValue, "max_value" := maxValue])
  }

  /** ForeignKey(to): an INTEGER column that is never a primary key. */
  function ForeignKey(to: string): Field {
    Field(ForeignKeyKind, "INTEGER", false, Some(to), map[])
  }

  /** The declared SQL type text of a CharField carries its max_length and nothing else. */
  lemma VarcharTypeCarriesLength(n: nat, primaryKey: bool, constraints: map<string, Value>)
    ensures var t := CharField(n, primaryKey, None, constraints).fieldType;
      && |t| > 9 && t[..8] == "VARCHAR(" && t[|t| - 1] == ')'
      && AllDigits(t[8..|t| - 1]) && DigitsValue(t[8..|t| - 1]) == n
  {
    var t := CharField(n, primaryKey, None, constraints).fieldType;
    assert t == "VARCHAR(" + NatToString(n) + ")";
    assert t[8..|t| - 1] == NatToString(n);
    DigitsValueOfNatToString(n);
  }

  /** `field.constraints.get(name)`, with None for a missing key. */
  function Constraint(f: Field, name: string): Value {
    if name in f.constraints then f.constraints[name] else VNone
  }

  /** The min_value / max_value checks shared by IntegerField and FloatField. */
  function CheckBounds(key: string, value: Value, f: Field): Option<OrmError> {
    var lo := Constraint(f, "min_value");
    var hi := Constraint(f, "max_value");
    if lo != VNone && !(IsNumber(value) && IsNumber(lo)) then Some(TypeError(key))
    else if lo != VNone && AsReal(value) < AsReal(lo) then Some(ValueError(key))
    else if hi != VNone && !(IsNumber(value) && IsNumber(hi)) then Some(TypeError(key))
    else if hi != VNone && AsReal(value) > AsReal(hi) then Some(ValueError(key))
    else None
  }

  /** The words_count and max_length checks of a CharField. */
  function CheckChar(key: string, value: Value, maxLength: int, f: Field): Option<OrmError> {
    var wc := Constraint(f, "words_count");
    if wc != VNone && !value.VStr? then Some(AttributeError("split"))
    else if wc != VNone && !EqualsInt(wc, |Words(value.s)|) then Some(ValueError(key))
    else if !value.VStr? then Some(TypeError(key))
    else if |value.s| > maxLength then Some(ValueError(key))
    else None
  }

  /**
   * validate_field(key, value, field): None when the value is accepted,
   * otherwise the error raised. ForeignKey values are not checked.
   */
  function ValidateField(key: string, value: Value, f: Field): Option<OrmError> {
    match f.kind
    case IntegerKind => CheckBounds(key, value, f)
    case FloatKind => CheckBounds(key, value, f)
    case CharKind(maxLength) => CheckChar(key, value, maxLength, f)
    case ForeignKeyKind => None
  }

  /**
   * Integer and float bounds are inclusive and only apply when set: a number
   * is accepted exactly when it lies between the bounds that are not None.
   */
  lemma NumericBoundsInclusive(key: string, value: Value, f: Field)
    requires f.kind == IntegerKind || f.kind == FloatKind
    requires IsNumber(value)
    requires Constraint(f, "min_value") == VNone || IsNumber(Constraint(f, "min_value"))
    requires Constraint(f, "max_value") == VNone || IsNumber(Constraint(f, "max_value"))
    ensures var lo, hi := Constraint(f, "min_value"), Constraint(f, "max_value");
      ValidateField(key, value, f) == None
      <==> (lo == VNone || AsReal(lo) <= AsReal(value)) && (hi == VNone || AsReal(value) <= AsReal(hi))
    ensures ValidateField(key, value, f) != None ==> ValidateField(key, value, f) == Some(ValueError(key))
  {
  }

  /** A descriptor whose bounds are both None accepts every value, numeric or not. */
  lemma UnboundedNumericAcceptsAll(key: string, value: Value, f: Field)
    requires f.kind == IntegerKind || f.kind == FloatKind
    requires Constraint(f, "min_value") == VNone && Constraint(f, "max_value") == VNone
    ensures ValidateField(key, value, f) == None
  {
  }

  /**
   * A string fits a CharField exactly when its whitespace-separated word
   * count matches words_count (if set) and it is no longer than max_length.
   */
  lemma CharAcceptsExactly(key: string, s: string, maxLength: int, primaryKey: bool, constraints: map<string, Value>)
    ensures var f := CharField(maxLength, primaryKey, None, constraints);
      var wc := Constraint(f, "words_count");
      ValidateField(key, VStr(s), f) == None
      <==> (wc == VNone || EqualsInt(wc, |Words(s)|)) && |s| <= maxLength
  {
  }

  /** A value that is not a string is always refused by a CharField. */
  lemma CharRefusesNonStrings(key: string, value: Value, f: Field)
    requires f.kind.CharKind? && !value.VStr?
    ensures ValidateField(key, value, f).Some?
  {
  }

  /** ForeignKey columns accept any value: referential integrity is left to the store. */
  lemma ForeignKeyAcceptsAll(key: string, value: Value, to: string)
    ensures ValidateField(key, value, ForeignKey(to)) == None
  {
  }
}
