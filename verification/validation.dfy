/**
 What the validation engine accepts for a stack of decorators. The checks the
 builders bound by numbers (`Min`, `Max`, `IsPositive`, `IsInt`, `IsNumber`,
 `MinLength`, `MaxLength`, `ArrayMinSize`, `ArrayMaxSize`, `ArrayNotEmpty`),
 the type checks, `IsNotEmpty`, `IsEnum` and `IsOptional` are given their
 class-validator meaning; the format checks (email, URL, UUID, phone number,
 password, date and nested DTO) are left to a `FormatCheck` parameter.
 Transforms and metadata never reject a value.
 */
module Validation {
  import opened FieldOptions
  import opened Decorators
  import opened FieldBuilders
  import opened FieldKinds
  import opened OptionalFields

  /** The verdict of a format validator on one value. */
  type FormatCheck = (Decorator, Value) -> bool

  /** `IsOptional` skips every other check when the value is null or undefined. */
  predicate Absent(v: Value) {
    v.Undefined? || v.Null?
  }

  predicate IsWholeNumber(x: real) {
    x.Floor as real == x
  }

  /** A check whose `{ each: true }` makes it apply to every element of an array. */
  predicate PerElement(d: Decorator) {
    && (d.IsInt? || d.IsNumber? || d.Min? || d.Max? || d.IsPositive?
        || d.ValidateNested? || d.IsEnum? || d.IsUUID?)
    && IsTrue(d.each)
  }

  /** One decorator's verdict on one value. */
  predicate Check(d: Decorator, v: Value, format: FormatCheck) {
    match d
    case IsNotEmpty => !Absent(v) && v != Str("")
    case IsString => v.Str?
    case IsBoolean => v.Bool?
    case IsInt(_) => v.Num? && IsWholeNumber(v.n)
    case IsNumber(_) => v.Num?
    case Min(m, _) => v.Num? && v.n >= m
    case Max(m, _) => v.Num? && v.n <= m
    case IsPositive(_) => v.Num? && v.n > 0.0
    case MinLength(k) => v.Str? && |v.s| >= k
    case MaxLength(k) => v.Str? && |v.s| <= k
    case ArrayMinSize(k) => v.Arr? && |v.items| >= k
    case ArrayMaxSize(k) => v.Arr? && |v.items| <= k
    case ArrayNotEmpty => v.Arr? && |v.items| > 0
    case IsEnum(values, _) => v in values
    case IsDate | IsEmail | IsUrl | IsPhoneNumber | IsPassword | ValidateNested(_) | IsUUID(_, _) =>
      format(d, v)
    case _ => true
  }

  /** A decorator's verdict, element by element when it is a per-element check
      and the value is an array. */
  predicate Holds(d: Decorator, v: Value, format: FormatCheck) {
    if PerElement(d) && v.Arr? then
      forall i | 0 <= i < |v.items| :: Check(d, v.items[i], format)
    else
      Check(d, v, format)
  }

  predicate AllHold(ds: seq<Decorator>, v: Value, format: FormatCheck) {
    forall d | d in ds :: Holds(d, v, format)
  }

  /** A stack accepts a value when `IsOptional` lets an absent value through or
      every decorator holds. */
  predicate Accepts(ds: seq<Decorator>, v: Value, format: FormatCheck) {
    (IsOptional in ds && Absent(v)) || AllHold(ds, v, format)
  }

  /** Metadata never rejects, so only the behaviour of a stack decides. */
  lemma AllHoldOnlyBehaviour(ds: seq<Decorator>, v: Value, format: FormatCheck)
    ensures AllHold(ds, v, format) <==> AllHold(Behaviour(ds), v, format)
  {
    SelectMembers(ds, IsBehaviour);
  }

  lemma PlainHasNoIsOptional(k: Kind, o: FieldOptions)
    ensures IsOptional !in Plain(k, o)
  {
  }

  /** No base builder pushes `IsOptional`. */
  lemma BaseHasNoIsOptional(k: Kind, o: FieldOptions)
    ensures IsOptional !in Build(k, o)
  {
    BuildSplit(k, o);
    PlainHasNoIsOptional(k, o);
    BehaviourKeepsEntries(Build(k, o), None);
  }

  /** Every `*Optional` variant accepts an absent value. */
  lemma OptionalAcceptsAbsent(k: Kind, o: FieldOptions, v: Value, format: FormatCheck)
    requires Absent(v)
    ensures Accepts(BuildOptional(k, o), v, format)
  {
    OptionalWrapsBase(k, o);
  }

  /** On a present value an `*Optional` variant accepts exactly what its base
      builder accepts; an absent one the base builder judges by its checks. */
  lemma OptionalPresentAsBase(k: Kind, o: FieldOptions, v: Value, format: FormatCheck)
    ensures Accepts(BuildOptional(k, o), v, format) <==> Absent(v) || Accepts(Build(k, o), v, format)
  {
    BaseHasNoIsOptional(k, o);
    OptionalAddsOnlyIsOptional(k, o);
    AllHoldOnlyBehaviour(BuildOptional(k, o), v, format);
    AllHoldOnlyBehaviour(Build(k, o), v, format);
    OptionalWrapsBase(k, o);
    assert Holds(IsOptional, v, format);
  }

  // ------------------------------------------------------------ per builder

  /** A translation set passes only with exactly `languageCount` entries, each
      accepted by nested validation. */
  lemma TranslationsExactLength(o: FieldOptions, languageCount: int, v: Value, format: FormatCheck)
    ensures Accepts(TranslationsField(o, languageCount), v, format) <==>
      && v.Arr? && |v.items| == languageCount
      && forall i | 0 <= i < |v.items| :: format(ValidateNested(Some(true)), v.items[i])
  {
    var checks := [ArrayMinSize(languageCount), ArrayMaxSize(languageCount), ValidateNested(Some(true)), TypeOf(o.schemaType)];
    var r := TranslationsField(o, languageCount);
    var meta := o.(isArray := OrDefault(o.isArray, true));
    assert r == checks + WhenSwagger(o, ApiProperty(meta));
    if v.Arr? && |v.items| == languageCount
       && forall i | 0 <= i < |v.items| :: format(ValidateNested(Some(true)), v.items[i])
    {
      forall d | d in r ensures Holds(d, v, format) {
        assert d in checks || d == ApiProperty(meta);
        assert d == ArrayMinSize(languageCount) || d == ArrayMaxSize(languageCount)
            || d == ValidateNested(Some(true)) || d == TypeOf(o.schemaType) || d == ApiProperty(meta);
      }
    }
    if Accepts(r, v, format) {
      assert Holds(ArrayMinSize(languageCount), v, format);
      assert Holds(ArrayMaxSize(languageCount), v, format);
      assert Holds(ValidateNested(Some(true)), v, format);
    }
  }

  /** A number check with a given `minimum` rejects every smaller number, and
      a bound of 0 is applied like any other. */
  lemma NumberMinimumApplies(o: FieldOptions, x: real, format: FormatCheck)
    requires o.minimum.Some?
    requires Accepts(NumberField(o), Num(x), format)
    ensures x >= o.minimum.value
  {
    NumberChecksPresent(o);
    assert Holds(Min(o.minimum.value, o.each), Num(x), format);
  }

  lemma NumberMaximumApplies(o: FieldOptions, x: real, format: FormatCheck)
    requires o.maximum.Some?
    requires Accepts(NumberField(o), Num(x), format)
    ensures x <= o.maximum.value
  {
    NumberChecksPresent(o);
    assert Holds(Max(o.maximum.value, o.each), Num(x), format);
  }

  /** With only a `minimum`, a number passes exactly when it is at least the
      minimum: the bound itself passes and anything below fails. */
  lemma NumberMinimumOnly(m: real, x: real, format: FormatCheck)
    ensures Accepts(NumberField(NoOptions.(minimum := Some(m))), Num(x), format) <==> x >= m
  {
    var o := NoOptions.(minimum := Some(m));
    var r := [TypeOf(Some(NumberCtor)), ApiProperty(NumberMeta(o)), IsNumber(None), Min(m, None)];
    assert NumberField(o) == r;
    if x >= m {
      forall d | d in r ensures Holds(d, Num(x), format) {
        assert d == TypeOf(Some(NumberCtor)) || d == ApiProperty(NumberMeta(o)) || d == IsNumber(None) || d == Min(m, None);
      }
    }
    assert IsOptional !in r;
    if Accepts(r, Num(x), format) {
      assert Holds(Min(m, None), Num(x), format);
    }
  }

  /** `{minimum: 0, maximum: 5, int: true}` accepts exactly the whole numbers
      from 0 to 5. */
  lemma NumberIntegerRange(x: real, format: FormatCheck)
    ensures Accepts(NumberField(NoOptions.(integer := Some(true), minimum := Some(0.0), maximum := Some(5.0))), Num(x), format)
        <==> IsWholeNumber(x) && 0.0 <= x <= 5.0
  {
    var o := NoOptions.(integer := Some(true), minimum := Some(0.0), maximum := Some(5.0));
    var r := [TypeOf(Some(NumberCtor)), ApiProperty(NumberMeta(o)), IsInt(None), Min(0.0, None), Max(5.0, None)];
    NumberIntegerRangeStack();
    if IsWholeNumber(x) && 0.0 <= x <= 5.0 {
      forall d | d in r ensures Holds(d, Num(x), format) {
        assert d == TypeOf(Some(NumberCtor)) || d == ApiProperty(NumberMeta(o))
            || d == IsInt(None) || d == Min(0.0, None) || d == Max(5.0, None);
      }
    }
    assert IsOptional !in r;
    if Accepts(r, Num(x), format) {
      assert Holds(IsInt(None), Num(x), format);
      assert Holds(Min(0.0, None), Num(x), format);
      assert Holds(Max(5.0, None), Num(x), format);
    }
  }

  lemma NumberIntegerRangeStack()
    ensures var o := NoOptions.(integer := Some(true), minimum := Some(0.0), maximum := Some(5.0));
      NumberField(o) == [TypeOf(Some(NumberCtor)), ApiProperty(NumberMeta(o)), IsInt(None), Min(0.0, None), Max(5.0, None)]
  {
  }

  /** With `each`, one element below the minimum rejects the whole array. */
  lemma NumberEachRejectsBadElement(o: FieldOptions, items: seq<Value>, i: int, format: FormatCheck)
    requires IsTrue(o.each) && o.minimum.Some?
    requires 0 <= i < |items| && items[i].Num? && items[i].n < o.minimum.value
    ensures !Accepts(NumberField(o), Arr(items), format)
  {
    NumberChecksPresent(o);
    assert Holds(Min(o.minimum.value, o.each), Arr(items), format) ==> Check(Min(o.minimum.value, o.each), items[i], format);
  }

  /** With both length bounds non-zero, a string passes exactly when it is
      non-empty and its length lies between them. */
  lemma StringLengthRange(a: int, b: int, s: string, format: FormatCheck)
    requires a != 0 && b != 0
    ensures Accepts(StringField(NoOptions.(minLength := Some(a), maxLength := Some(b))), Str(s), format)
        <==> s != [] && a <= |s| <= b
  {
    var o := NoOptions.(minLength := Some(a), maxLength := Some(b));
    var r := [IsNotEmpty, IsString, Trim, ApiProperty(StringTyped(o)), MinLength(a), MaxLength(b)];
    assert StringField(o) == r;
    assert Str(s) == Str("") <==> s == [];
    if s != [] && a <= |s| <= b {
      forall d | d in r ensures Holds(d, Str(s), format) {
        assert d == IsNotEmpty || d == IsString || d == Trim || d == ApiProperty(StringTyped(o)) || d == MinLength(a) || d == MaxLength(b);
      }
    }
    if Accepts(r, Str(s), format) {
      assert Holds(IsNotEmpty, Str(s), format);
      assert Holds(MinLength(a), Str(s), format);
      assert Holds(MaxLength(b), Str(s), format);
    }
  }

  /** A length bound of 0 is falsy: it adds no check, and the stack validates
      exactly as if the bound had not been given. */
  lemma StringZeroLengthIsNoBound(o: FieldOptions)
    ensures Behaviour(StringField(o.(minLength := Some(0)))) == Behaviour(StringField(o.(minLength := None)))
    ensures Behaviour(StringField(o.(maxLength := Some(0)))) == Behaviour(StringField(o.(maxLength := None)))
  {
    StringSplit(o.(minLength := Some(0)));
    StringSplit(o.(minLength := None));
    StringSplit(o.(maxLength := Some(0)));
    StringSplit(o.(maxLength := None));
  }

  /** An enum field accepts exactly the members of the enum, element by
      element when `each` is set. */
  lemma EnumMembership(values: set<Value>, o: FieldOptions, v: Value, format: FormatCheck)
    ensures !IsTrue(o.each) ==> (Accepts(EnumField(values, o), v, format) <==> v in values)
    ensures IsTrue(o.each) && v.Arr? ==>
      (Accepts(EnumField(values, o), v, format) <==> forall i | 0 <= i < |v.items| :: v.items[i] in values)
  {
    assert IsEnum(values, o.each) in EnumField(values, o);
  }

  /** A UUID array field accepts exactly the non-empty arrays whose every
      element passes the version-4 UUID check. */
  lemma UUIDArrayNonEmpty(o: FieldOptions, v: Value, format: FormatCheck)
    requires IsTrue(o.isArray)
    ensures Accepts(UUIDField(o), v, format) <==>
      && v.Arr? && |v.items| > 0
      && forall i | 0 <= i < |v.items| :: format(IsUUID("4", o.isArray), v.items[i])
  {
    var r := UUIDField(o);
    assert r == [IsUUID("4", o.isArray), ApiUUIDProperty(o), ArrayNotEmpty, ToArray];
    assert IsOptional !in r;
    if v.Arr? && |v.items| > 0
       && forall i | 0 <= i < |v.items| :: format(IsUUID("4", o.isArray), v.items[i])
    {
      forall d | d in r ensures Holds(d, v, format) {
        assert d == IsUUID("4", o.isArray) || d == ApiUUIDProperty(o) || d == ArrayNotEmpty || d == ToArray;
      }
    }
    if Accepts(r, v, format) {
      assert Holds(ArrayNotEmpty, v, format);
      assert Holds(IsUUID("4", o.isArray), v, format);
    }
  }
}
