/**
 The field builders of `fields.decorator.ts`: each maps an option bag to the
 stack of decorators it applies, in the order it pushes them. Nested
 `applyDecorators` calls are flattened into one list.

 Every builder that honours `swagger` is written as the decorators it pushes
 before the metadata, the swagger-gated metadata, and the decorators it pushes
 after it; that is the order of the source.
 */
module FieldBuilders {
  import opened FieldOptions
  import opened Decorators

  /** The schema `format` PasswordField publishes unless the caller gives one. */
  const PasswordFormat: string := "^[\\d!#$%&*@A-Z^a-z]*$"

  /** The metadata entry `d` alone when swagger is on, nothing when the caller
      turns it off. */
  function WhenSwagger(o: FieldOptions, d: Decorator): seq<Decorator> {
    if SwaggerOn(o) then [d] else []
  }

  /** The options with the schema type defaulted to `String`. */
  function StringTyped(o: FieldOptions): FieldOptions {
    o.(schemaType := OrDefault(o.schemaType, StringCtor))
  }

  // ---------------------------------------------------------------- Number

  /** The options with the schema type defaulted to the name `number` and the
      example forced to 1 for integer fields and 1.2 otherwise. */
  function NumberMeta(o: FieldOptions): FieldOptions {
    o.(schemaType := OrDefault(o.schemaType, NumberName),
       example := Some(if IsTrue(o.integer) then 1.0 else 1.2))
  }

  /** What NumberField pushes after the metadata. */
  function NumberChecks(o: FieldOptions): seq<Decorator> {
    var each := o.each;
    (if IsTrue(each) then [ToArray] else [])
    + (if IsTrue(o.integer) then [IsInt(each)] else [IsNumber(each)])
    + (if o.minimum.Some? then [Min(o.minimum.value, each)] else [])
    + (if o.maximum.Some? then [Max(o.maximum.value, each)] else [])
    + (if IsTrue(o.isPositive) then [IsPositive(each)] else [])
  }

  function NumberField(o: FieldOptions): (r: seq<Decorator>)
    ensures |r| >= 2 && r[0] == TypeOf(Some(NumberCtor))
  {
    [TypeOf(Some(NumberCtor))] + WhenSwagger(o, ApiProperty(NumberMeta(o))) + NumberChecks(o)
  }

  /** `ToArray` exactly with `each`; `IsInt` with `int` and `IsNumber` without;
      `Min` and `Max` for every given bound, 0 included; `IsPositive` exactly
      with `isPositive`. Every check carries `each`. */
  lemma NumberChecksPresent(o: FieldOptions)
    ensures ToArray in NumberField(o) <==> IsTrue(o.each)
    ensures IsInt(o.each) in NumberField(o) <==> IsTrue(o.integer)
    ensures IsNumber(o.each) in NumberField(o) <==> !IsTrue(o.integer)
    ensures o.minimum.Some? ==> Min(o.minimum.value, o.each) in NumberField(o)
    ensures o.maximum.Some? ==> Max(o.maximum.value, o.each) in NumberField(o)
    ensures IsPositive(o.each) in NumberField(o) <==> IsTrue(o.isPositive)
  {
  }

  /** Every entry of NumberField's stack is the coercion, the metadata, or one
      of the checks pushed after it. */
  lemma NumberParts(o: FieldOptions)
    ensures forall d | d in NumberField(o) ::
      d == TypeOf(Some(NumberCtor)) || d == ApiProperty(NumberMeta(o)) || d in NumberChecks(o)
  {
    var each := o.each;
    var c1 := if IsTrue(each) then [ToArray] else [];
    var c2 := if IsTrue(o.integer) then [IsInt(each)] else [IsNumber(each)];
    var c3 := if o.minimum.Some? then [Min(o.minimum.value, each)] else [];
    var c4 := if o.maximum.Some? then [Max(o.maximum.value, each)] else [];
    var c5 := if IsTrue(o.isPositive) then [IsPositive(each)] else [];
    assert NumberChecks(o) == c1 + c2 + c3 + c4 + c5;
  }

  /** Each check NumberField pushes after the metadata, piece by piece. */
  lemma NumberCheckEntries(o: FieldOptions)
    ensures forall d | d in NumberChecks(o) ::
      || d == ToArray
      || d == IsInt(o.each) || d == IsNumber(o.each)
      || (o.minimum.Some? && d == Min(o.minimum.value, o.each))
      || (o.maximum.Some? && d == Max(o.maximum.value, o.each))
      || d == IsPositive(o.each)
  {
    var each := o.each;
    var c1 := if IsTrue(each) then [ToArray] else [];
    var c2 := if IsTrue(o.integer) then [IsInt(each)] else [IsNumber(each)];
    var c3 := if o.minimum.Some? then [Min(o.minimum.value, each)] else [];
    var c4 := if o.maximum.Some? then [Max(o.maximum.value, each)] else [];
    var c5 := if IsTrue(o.isPositive) then [IsPositive(each)] else [];
    assert NumberChecks(o) == c1 + c2 + c3 + c4 + c5;
  }

  /** A bound check is pushed only for a bound the caller gave. */
  lemma NumberBoundsOnlyWhenGiven(o: FieldOptions)
    ensures forall d | d in NumberField(o) && d.Min? :: o.minimum == Some(d.bound)
    ensures forall d | d in NumberField(o) && d.Max? :: o.maximum == Some(d.bound)
  {
    NumberParts(o);
    NumberCheckEntries(o);
  }

  /** Every per-element check carries the caller's `each` flag. */
  lemma NumberEachFlag(o: FieldOptions)
    ensures EachFlagsAre(NumberField(o), o.each)
  {
    NumberParts(o);
    NumberCheckEntries(o);
  }

  /** The metadata is the options with `type` defaulted to `'number'` and
      `example` forced to 1 for integers and 1.2 otherwise. */
  lemma NumberMetadata(o: FieldOptions)
    ensures forall d | d in NumberField(o) && IsMetadata(d) ::
      && SwaggerOn(o) && d.ApiProperty?
      && d.meta.schemaType == OrDefault(o.schemaType, NumberName)
      && d.meta.example == Some(if IsTrue(o.integer) then 1.0 else 1.2)
      && d.meta.(schemaType := o.schemaType, example := o.example) == o
  {
    NumberParts(o);
    NumberCheckEntries(o);
  }

  // ---------------------------------------------------------------- String

  /** What StringField pushes after the metadata. */
  function StringChecks(o: FieldOptions): seq<Decorator> {
    (if IsNonZero(o.minLength) then [MinLength(o.minLength.value)] else [])
    + (if IsNonZero(o.maxLength) then [MaxLength(o.maxLength.value)] else [])
    + (if IsTrue(o.toLowerCase) then [ToLowerCase] else [])
    + (if IsTrue(o.toUpperCase) then [ToUpperCase] else [])
  }

  /** Each check or transform StringField pushes after the metadata. */
  lemma StringCheckEntries(o: FieldOptions)
    ensures forall d | d in StringChecks(o) ::
      || (IsNonZero(o.minLength) && d == MinLength(o.minLength.value))
      || (IsNonZero(o.maxLength) && d == MaxLength(o.maxLength.value))
      || d == ToLowerCase || d == ToUpperCase
  {
    var c1 := if IsNonZero(o.minLength) then [MinLength(o.minLength.value)] else [];
    var c2 := if IsNonZero(o.maxLength) then [MaxLength(o.maxLength.value)] else [];
    var c3 := if IsTrue(o.toLowerCase) then [ToLowerCase] else [];
    var c4 := if IsTrue(o.toUpperCase) then [ToUpperCase] else [];
    assert StringChecks(o) == c1 + c2 + c3 + c4;
  }

  function StringField(o: FieldOptions): (r: seq<Decorator>)
    ensures |r| >= 3 && r[0] == IsNotEmpty && r[1] == IsString && r[2] == Trim
  {
    [IsNotEmpty, IsString, Trim] + WhenSwagger(o, ApiProperty(StringTyped(o))) + StringChecks(o)
  }

  /** `MinLength` and `MaxLength` for every truthy bound; `ToLowerCase` and
      `ToUpperCase` exactly when asked for. */
  lemma StringChecksPresent(o: FieldOptions)
    ensures IsNonZero(o.minLength) ==> MinLength(o.minLength.value) in StringField(o)
    ensures IsNonZero(o.maxLength) ==> MaxLength(o.maxLength.value) in StringField(o)
    ensures ToLowerCase in StringField(o) <==> IsTrue(o.toLowerCase)
    ensures ToUpperCase in StringField(o) <==> IsTrue(o.toUpperCase)
  {
  }

  /** A length bound is pushed only when truthy, so a bound of 0 adds nothing. */
  lemma StringLengthOnlyWhenTruthy(o: FieldOptions)
    ensures forall d | d in StringField(o) && d.MinLength? :: IsNonZero(o.minLength) && o.minLength.value == d.limit
    ensures forall d | d in StringField(o) && d.MaxLength? :: IsNonZero(o.maxLength) && o.maxLength.value == d.limit
  {
  }

  /** The metadata is the options with `type` defaulted to `String`. */
  lemma StringMetadata(o: FieldOptions)
    ensures forall d | d in StringField(o) && IsMetadata(d) ::
      && SwaggerOn(o) && d.ApiProperty?
      && d.meta == o.(schemaType := OrDefault(o.schemaType, StringCtor))
  {
  }

  // ---------------------------------------------------------------- Password

  /** The options with `format` defaulted to the password pattern. */
  function PasswordOptions(o: FieldOptions): FieldOptions {
    o.(format := OrDefault(o.format, PasswordFormat))
  }

  function PasswordField(o: FieldOptions): (r: seq<Decorator>)
    ensures |r| >= 4 && r[0] == IsNotEmpty && r[1] == IsString && r[2] == Trim && r[|r| - 1] == IsPassword
  {
    StringField(PasswordOptions(o)) + [IsPassword]
  }

  /** Everything before the final `IsPassword` is StringField's stack for the
      options with the password pattern as the default `format`. */
  lemma PasswordExtendsString(o: FieldOptions)
    ensures var r := PasswordField(o);
      r[..|r| - 1] == StringField(o.(format := OrDefault(o.format, PasswordFormat)))
  {
    var s := StringField(PasswordOptions(o));
    assert (s + [IsPassword])[..|s|] == s;
  }

  /** The only metadata entry, present when swagger is on, publishes the
      options with `type` defaulted to `String` and `format` defaulted to the
      password pattern; a caller's own `format` wins. */
  lemma PasswordMetadata(o: FieldOptions)
    ensures forall d | d in PasswordField(o) && IsMetadata(d) ::
      && SwaggerOn(o) && d.ApiProperty?
      && d.meta.format == (if o.format.Some? then o.format else Some(PasswordFormat))
      && d.meta.schemaType == (if o.schemaType.Some? then o.schemaType else Some(StringCtor))
      && d.meta.(format := o.format, schemaType := o.schemaType) == o
  {
    StringMetadata(PasswordOptions(o));
  }

  // ---------------------------------------------------------------- Boolean

  function BooleanField(o: FieldOptions): (r: seq<Decorator>)
    ensures |r| >= 2 && r[0] == IsBoolean && r[1] == ToBoolean
    ensures |r| == (if SwaggerOn(o) then 3 else 2)
  {
    [IsBoolean, ToBoolean] + WhenSwagger(o, ApiProperty(o.(schemaType := OrDefault(o.schemaType, BooleanCtor))))
  }

  /** The only metadata entry publishes the options with `type` defaulted to `Boolean`. */
  lemma BooleanMetadata(o: FieldOptions)
    ensures forall d | d in BooleanField(o) && IsMetadata(d) ::
      d == ApiProperty(o.(schemaType := OrDefault(o.schemaType, BooleanCtor)))
  {
  }

  // ---------------------------------------------------------------- Translations

  /** `languageCount` is `supportedLanguageCount`, a constant of the application. */
  function TranslationsField(o: FieldOptions, languageCount: int): (r: seq<Decorator>)
    ensures |r| >= 4
    ensures r[0] == ArrayMinSize(languageCount) && r[1] == ArrayMaxSize(languageCount)
    ensures r[2] == ValidateNested(Some(true)) && r[3] == TypeOf(o.schemaType)
    ensures |r| == (if SwaggerOn(o) then 5 else 4)
  {
    [ArrayMinSize(languageCount), ArrayMaxSize(languageCount), ValidateNested(Some(true)), TypeOf(o.schemaType)]
    + WhenSwagger(o, ApiProperty(o.(isArray := OrDefault(o.isArray, true))))
  }

  /** The metadata publishes the options with `isArray` defaulted to true. */
  lemma TranslationsMetadata(o: FieldOptions, languageCount: int)
    ensures forall d | d in TranslationsField(o, languageCount) && IsMetadata(d) ::
      && d.ApiProperty?
      && d.meta.isArray == OrDefault(o.isArray, true)
      && d.meta.(isArray := o.isArray) == o
  {
  }

  // ---------------------------------------------------------------- Enum

  /** `enumValues` is what `getEnum()` returns; the builder calls it eagerly. */
  function EnumField(enumValues: set<Value>, o: FieldOptions): (r: seq<Decorator>)
    ensures |r| >= 1 && r[0] == IsEnum(enumValues, o.each)
    ensures ToArray in r <==> IsTrue(o.each)
  {
    [IsEnum(enumValues, o.each)]
    + WhenSwagger(o, ApiEnumProperty(enumValues, o))
    + (if IsTrue(o.each) then [ToArray] else [])
  }

  /** Besides `IsEnum` and `ToArray` the stack holds only the enum metadata,
      and only when `swagger` is not false. */
  lemma EnumEntries(enumValues: set<Value>, o: FieldOptions)
    ensures forall d | d in EnumField(enumValues, o) && IsMetadata(d) :: SwaggerOn(o) && d == ApiEnumProperty(enumValues, o)
    ensures forall d | d in EnumField(enumValues, o) :: d.IsEnum? || d.ToArray? || IsMetadata(d)
  {
  }

  // ---------------------------------------------------------------- Email

  /** The options with `toLowerCase` defaulted to true. */
  function EmailStringOptions(o: FieldOptions): FieldOptions {
    o.(toLowerCase := OrDefault(o.toLowerCase, true))
  }

  function EmailField(o: FieldOptions): (r: seq<Decorator>)
    ensures |r| >= 4 && r[0] == IsEmail && r[1] == IsNotEmpty && r[2] == IsString && r[3] == Trim
  {
    [IsEmail] + StringField(EmailStringOptions(o)) + WhenSwagger(o, ApiProperty(StringTyped(o)))
  }

  /** Email addresses are lower-cased unless the caller sets `toLowerCase: false`. */
  lemma EmailCase(o: FieldOptions)
    ensures ToLowerCase in EmailField(o) <==> o.toLowerCase == None || o.toLowerCase == Some(true)
    ensures ToUpperCase in EmailField(o) <==> IsTrue(o.toUpperCase)
  {
    var e := EmailStringOptions(o);
    var inner := StringField(e);
    var m := WhenSwagger(o, ApiProperty(StringTyped(o)));
    assert EmailField(o) == [IsEmail] + inner + m;
    assert ToLowerCase in EmailField(o) <==> ToLowerCase in inner;
    assert ToUpperCase in EmailField(o) <==> ToUpperCase in inner;
    StringChecksPresent(e);
    assert IsTrue(e.toLowerCase) <==> o.toLowerCase == None || o.toLowerCase == Some(true);
  }

  /** Both metadata entries (the inner StringField's and EmailField's own) publish
      the options with `type` defaulted to `String`; they differ only in
      `toLowerCase`, which the inner one defaults to true. */
  lemma EmailMetadata(o: FieldOptions)
    ensures forall d | d in EmailField(o) && IsMetadata(d) ::
      && SwaggerOn(o) && d.ApiProperty?
      && d.meta.(toLowerCase := o.toLowerCase) == o.(schemaType := OrDefault(o.schemaType, StringCtor))
  {
    StringMetadata(EmailStringOptions(o));
  }

  // ---------------------------------------------------------------- Phone

  function PhoneField(o: FieldOptions): (r: seq<Decorator>)
    ensures |r| >= 2 && r[0] == IsPhoneNumber && r[1] == PhoneNumberSerializer
    ensures |r| == (if SwaggerOn(o) then 3 else 2)
  {
    [IsPhoneNumber, PhoneNumberSerializer] + WhenSwagger(o, ApiProperty(StringTyped(o)))
  }

  /** The only metadata entry publishes the options with `type` defaulted to `String`. */
  lemma PhoneMetadata(o: FieldOptions)
    ensures forall d | d in PhoneField(o) && IsMetadata(d) ::
      d == ApiProperty(o.(schemaType := OrDefault(o.schemaType, StringCtor)))
  {
  }

  // ---------------------------------------------------------------- UUID

  function UUIDField(o: FieldOptions): (r: seq<Decorator>)
    ensures |r| >= 2 && r[0] == IsUUID("4", o.isArray) && r[1] == ApiUUIDProperty(o)
    ensures ToArray in r <==> IsTrue(o.isArray)
    ensures ArrayNotEmpty in r <==> IsTrue(o.isArray)
    ensures |r| == (if IsTrue(o.isArray) then 4 else 2)
  {
    [IsUUID("4", o.isArray)] + [ApiUUIDProperty(o)]
    + (if IsTrue(o.isArray) then [ArrayNotEmpty, ToArray] else [])
  }

  // ---------------------------------------------------------------- URL

  function URLField(o: FieldOptions): (r: seq<Decorator>)
    ensures |r| >= 4 && r[|r| - 1] == IsUrl && r[..|r| - 1] == StringField(o)
  {
    StringField(o) + [IsUrl]
  }

  // ---------------------------------------------------------------- Date

  function DateField(o: FieldOptions): (r: seq<Decorator>)
    ensures |r| == 3 && r[0] == TypeOf(Some(DateCtor)) && r[1] == IsDate
  {
    [TypeOf(Some(DateCtor)), IsDate] + [ApiProperty(o)]
  }

  /** The only metadata entry publishes the options unchanged, whatever `swagger` says. */
  lemma DateMetadata(o: FieldOptions)
    ensures forall d | d in DateField(o) && IsMetadata(d) :: d == ApiProperty(o)
    ensures ApiProperty(o) in DateField(o)
  {
  }
}
