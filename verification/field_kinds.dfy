/**
 All field builders behind one tag, so that properties the source keeps for
 every builder can be stated once: `swagger: false` removes only metadata,
 `ToArray` follows the array flag, and each stack splits into its
 behaviour and its metadata.
 */
module FieldKinds {
  import opened FieldOptions
  import opened Decorators
  import opened FieldBuilders

  datatype Kind =
    | NumberKind
    | StringKind
    | PasswordKind
    | BooleanKind
    | TranslationsKind(languageCount: int)
    | EnumKind(values: set<Value>)
    | EmailKind
    | PhoneKind
    | UUIDKind
    | URLKind
    | DateKind

  function Build(k: Kind, o: FieldOptions): seq<Decorator> {
    match k
    case NumberKind => NumberField(o)
    case StringKind => StringField(o)
    case PasswordKind => PasswordField(o)
    case BooleanKind => BooleanField(o)
    case TranslationsKind(n) => TranslationsField(o, n)
    case EnumKind(vs) => EnumField(vs, o)
    case EmailKind => EmailField(o)
    case PhoneKind => PhoneField(o)
    case UUIDKind => UUIDField(o)
    case URLKind => URLField(o)
    case DateKind => DateField(o)
  }

  /** UUIDField and DateField emit their metadata whatever `swagger` says. */
  predicate HonoursSwagger(k: Kind) {
    !k.UUIDKind? && !k.DateKind?
  }

  /** The coercions, transforms and validators of a builder, without metadata. */
  function Plain(k: Kind, o: FieldOptions): seq<Decorator> {
    match k
    case NumberKind => [TypeOf(Some(NumberCtor))] + NumberChecks(o)
    case StringKind => [IsNotEmpty, IsString, Trim] + StringChecks(o)
    case PasswordKind => [IsNotEmpty, IsString, Trim] + (StringChecks(PasswordOptions(o)) + [IsPassword])
    case BooleanKind => [IsBoolean, ToBoolean]
    case TranslationsKind(n) => [ArrayMinSize(n), ArrayMaxSize(n), ValidateNested(Some(true)), TypeOf(o.schemaType)]
    case EnumKind(vs) => [IsEnum(vs, o.each)] + (if IsTrue(o.each) then [ToArray] else [])
    case EmailKind => [IsEmail] + ([IsNotEmpty, IsString, Trim] + StringChecks(EmailStringOptions(o)))
    case PhoneKind => [IsPhoneNumber, PhoneNumberSerializer]
    case UUIDKind => [IsUUID("4", o.isArray)] + (if IsTrue(o.isArray) then [ArrayNotEmpty, ToArray] else [])
    case URLKind => [IsNotEmpty, IsString, Trim] + (StringChecks(o) + [IsUrl])
    case DateKind => [TypeOf(Some(DateCtor)), IsDate]
  }

  /** The metadata entries of a builder. */
  function MetaOf(k: Kind, o: FieldOptions): seq<Decorator> {
    match k
    case NumberKind => WhenSwagger(o, ApiProperty(NumberMeta(o)))
    case StringKind => WhenSwagger(o, ApiProperty(StringTyped(o)))
    case PasswordKind => WhenSwagger(o, ApiProperty(StringTyped(PasswordOptions(o))))
    case BooleanKind => WhenSwagger(o, ApiProperty(o.(schemaType := OrDefault(o.schemaType, BooleanCtor))))
    case TranslationsKind(_) => WhenSwagger(o, ApiProperty(o.(isArray := OrDefault(o.isArray, true))))
    case EnumKind(vs) => WhenSwagger(o, ApiEnumProperty(vs, o))
    case EmailKind =>
      WhenSwagger(o, ApiProperty(StringTyped(EmailStringOptions(o)))) + WhenSwagger(o, ApiProperty(StringTyped(o)))
    case PhoneKind => WhenSwagger(o, ApiProperty(StringTyped(o)))
    case UUIDKind => [ApiUUIDProperty(o)]
    case URLKind => WhenSwagger(o, ApiProperty(StringTyped(o)))
    case DateKind => [ApiProperty(o)]
  }

  /** How many metadata entries a builder pushes. */
  function MetadataCount(k: Kind, o: FieldOptions): nat {
    if !HonoursSwagger(k) then 1
    else if !SwaggerOn(o) then 0
    else if k.EmailKind? then 2
    else 1
  }

  lemma StringSplit(o: FieldOptions)
    ensures Behaviour(StringField(o)) == Plain(StringKind, o)
    ensures Metadata(StringField(o)) == MetaOf(StringKind, o)
  {
    StringCheckEntries(o);
    BehaviourAroundMetadata([IsNotEmpty, IsString, Trim], WhenSwagger(o, ApiProperty(StringTyped(o))), StringChecks(o));
    MetadataAroundMetadata([IsNotEmpty, IsString, Trim], WhenSwagger(o, ApiProperty(StringTyped(o))), StringChecks(o));
  }

  /** EmailField checks what StringField checks for the same options with
      `toLowerCase` defaulted to true, `IsEmail` first. */
  lemma EmailExtendsString(o: FieldOptions)
    ensures Behaviour(EmailField(o)) ==
      [IsEmail] + Behaviour(StringField(o.(toLowerCase := OrDefault(o.toLowerCase, true))))
  {
    EmailSplit(o);
    StringSplit(EmailStringOptions(o));
  }

  lemma NumberSplit(o: FieldOptions)
    ensures Behaviour(NumberField(o)) == Plain(NumberKind, o)
    ensures Metadata(NumberField(o)) == MetaOf(NumberKind, o)
  {
    var m := WhenSwagger(o, ApiProperty(NumberMeta(o)));
    NumberCheckEntries(o);
    BehaviourAroundMetadata([TypeOf(Some(NumberCtor))], m, NumberChecks(o));
    MetadataAroundMetadata([TypeOf(Some(NumberCtor))], m, NumberChecks(o));
  }

  lemma PasswordSplit(o: FieldOptions)
    ensures Behaviour(PasswordField(o)) == Plain(PasswordKind, o)
    ensures Metadata(PasswordField(o)) == MetaOf(PasswordKind, o)
  {
    var p := PasswordOptions(o);
    var m := WhenSwagger(p, ApiProperty(StringTyped(p)));
    assert PasswordField(o) == [IsNotEmpty, IsString, Trim] + m + (StringChecks(p) + [IsPassword]);
    StringCheckEntries(p);
    BehaviourAroundMetadata([IsNotEmpty, IsString, Trim], m, StringChecks(p) + [IsPassword]);
    MetadataAroundMetadata([IsNotEmpty, IsString, Trim], m, StringChecks(p) + [IsPassword]);
  }

  lemma EmailSplit(o: FieldOptions)
    ensures Behaviour(EmailField(o)) == Plain(EmailKind, o)
    ensures Metadata(EmailField(o)) == MetaOf(EmailKind, o)
  {
    var e := EmailStringOptions(o);
    var inner := StringField(e);
    var m := WhenSwagger(o, ApiProperty(StringTyped(o)));
    assert EmailField(o) == ([IsEmail] + inner) + m;
    StringSplit(e);
    SelectAll([IsEmail], IsBehaviour);
    SelectNone(m, IsBehaviour);
    SelectAppend([IsEmail], inner, IsBehaviour);
    SelectAppend([IsEmail] + inner, m, IsBehaviour);
    assert Behaviour(EmailField(o)) == [IsEmail] + Behaviour(inner);
    SelectNone([IsEmail], IsMetadata);
    SelectAll(m, IsMetadata);
    SelectAppend([IsEmail], inner, IsMetadata);
    SelectAppend([IsEmail] + inner, m, IsMetadata);
    assert Metadata(EmailField(o)) == Metadata(inner) + m;
    assert WhenSwagger(e, ApiProperty(StringTyped(e))) == WhenSwagger(o, ApiProperty(StringTyped(e)));
  }

  lemma UrlSplit(o: FieldOptions)
    ensures Behaviour(URLField(o)) == Plain(URLKind, o)
    ensures Metadata(URLField(o)) == MetaOf(URLKind, o)
  {
    StringSplit(o);
    SelectAppend(StringField(o), [IsUrl], IsBehaviour);
    SelectAppend(StringField(o), [IsUrl], IsMetadata);
  }

  lemma BooleanSplit(o: FieldOptions)
    ensures Behaviour(BooleanField(o)) == Plain(BooleanKind, o)
    ensures Metadata(BooleanField(o)) == MetaOf(BooleanKind, o)
  {
    var m := MetaOf(BooleanKind, o);
    assert BooleanField(o) == [IsBoolean, ToBoolean] + m + [];
    BehaviourAroundMetadata([IsBoolean, ToBoolean], m, []);
    MetadataAroundMetadata([IsBoolean, ToBoolean], m, []);
  }

  lemma TranslationsSplit(n: int, o: FieldOptions)
    ensures Behaviour(TranslationsField(o, n)) == Plain(TranslationsKind(n), o)
    ensures Metadata(TranslationsField(o, n)) == MetaOf(TranslationsKind(n), o)
  {
    var a := [ArrayMinSize(n), ArrayMaxSize(n), ValidateNested(Some(true)), TypeOf(o.schemaType)];
    var m := MetaOf(TranslationsKind(n), o);
    assert TranslationsField(o, n) == a + m + [];
    BehaviourAroundMetadata(a, m, []);
    MetadataAroundMetadata(a, m, []);
  }

  lemma EnumSplit(vs: set<Value>, o: FieldOptions)
    ensures Behaviour(EnumField(vs, o)) == Plain(EnumKind(vs), o)
    ensures Metadata(EnumField(vs, o)) == MetaOf(EnumKind(vs), o)
  {
    var b := if IsTrue(o.each) then [ToArray] else [];
    var m := MetaOf(EnumKind(vs), o);
    assert EnumField(vs, o) == [IsEnum(vs, o.each)] + m + b;
    BehaviourAroundMetadata([IsEnum(vs, o.each)], m, b);
    MetadataAroundMetadata([IsEnum(vs, o.each)], m, b);
  }

  lemma PhoneSplit(o: FieldOptions)
    ensures Behaviour(PhoneField(o)) == Plain(PhoneKind, o)
    ensures Metadata(PhoneField(o)) == MetaOf(PhoneKind, o)
  {
    var m := MetaOf(PhoneKind, o);
    assert PhoneField(o) == [IsPhoneNumber, PhoneNumberSerializer] + m + [];
    BehaviourAroundMetadata([IsPhoneNumber, PhoneNumberSerializer], m, []);
    MetadataAroundMetadata([IsPhoneNumber, PhoneNumberSerializer], m, []);
  }

  lemma UUIDSplit(o: FieldOptions)
    ensures Behaviour(UUIDField(o)) == Plain(UUIDKind, o)
    ensures Metadata(UUIDField(o)) == MetaOf(UUIDKind, o)
  {
    var b := if IsTrue(o.isArray) then [ArrayNotEmpty, ToArray] else [];
    assert UUIDField(o) == [IsUUID("4", o.isArray)] + [ApiUUIDProperty(o)] + b;
    BehaviourAroundMetadata([IsUUID("4", o.isArray)], [ApiUUIDProperty(o)], b);
    MetadataAroundMetadata([IsUUID("4", o.isArray)], [ApiUUIDProperty(o)], b);
  }

  lemma DateSplit(o: FieldOptions)
    ensures Behaviour(DateField(o)) == Plain(DateKind, o)
    ensures Metadata(DateField(o)) == MetaOf(DateKind, o)
  {
    assert DateField(o) == [TypeOf(Some(DateCtor)), IsDate] + [ApiProperty(o)] + [];
    BehaviourAroundMetadata([TypeOf(Some(DateCtor)), IsDate], [ApiProperty(o)], []);
    MetadataAroundMetadata([TypeOf(Some(DateCtor)), IsDate], [ApiProperty(o)], []);
  }

  /** A builder's stack is its plain part with the metadata inserted. */
  lemma BuildSplit(k: Kind, o: FieldOptions)
    ensures Behaviour(Build(k, o)) == Plain(k, o)
    ensures Metadata(Build(k, o)) == MetaOf(k, o)
  {
    match k
    case NumberKind => NumberSplit(o);
    case StringKind => StringSplit(o);
    case PasswordKind => PasswordSplit(o);
    case EmailKind => EmailSplit(o);
    case URLKind => UrlSplit(o);
    case BooleanKind => BooleanSplit(o);
    case TranslationsKind(n) => TranslationsSplit(n, o);
    case EnumKind(vs) => EnumSplit(vs, o);
    case PhoneKind => PhoneSplit(o);
    case UUIDKind => UUIDSplit(o);
    case DateKind => DateSplit(o);
  }

  /** The option keys a builder's coercions, transforms and validators read. */
  predicate SameChecks(o: FieldOptions, o': FieldOptions) {
    && o.schemaType == o'.schemaType && o.isArray == o'.isArray && o.each == o'.each
    && o.integer == o'.integer && o.minimum == o'.minimum && o.maximum == o'.maximum
    && o.isPositive == o'.isPositive && o.minLength == o'.minLength && o.maxLength == o'.maxLength
    && o.toLowerCase == o'.toLowerCase && o.toUpperCase == o'.toUpperCase
  }

  /** Options that agree on those keys give the same behaviour. */
  lemma PlainReadsOnlyChecks(k: Kind, o: FieldOptions, o': FieldOptions)
    requires SameChecks(o, o')
    ensures Plain(k, o) == Plain(k, o')
  {
    match k
    case NumberKind => assert NumberChecks(o) == NumberChecks(o');
    case StringKind | URLKind => assert StringChecks(o) == StringChecks(o');
    case PasswordKind => assert StringChecks(PasswordOptions(o)) == StringChecks(PasswordOptions(o'));
    case EmailKind => assert StringChecks(EmailStringOptions(o)) == StringChecks(EmailStringOptions(o'));
    case _ =>
  }

  /** Options that agree on those keys give builds with the same behaviour. */
  lemma BehaviourReadsOnlyChecks(k: Kind, o: FieldOptions, o': FieldOptions)
    requires SameChecks(o, o')
    ensures Behaviour(Build(k, o)) == Behaviour(Build(k, o'))
  {
    BuildSplit(k, o);
    BuildSplit(k, o');
    PlainReadsOnlyChecks(k, o, o');
  }

  /** With `swagger: false` a builder that honours the flag pushes exactly its
      stack with the metadata removed: every coercion, transform and validator
      stays, in the same order. */
  lemma SwaggerOffRemovesOnlyMetadata(k: Kind, o: FieldOptions)
    requires HonoursSwagger(k)
    ensures Metadata(Build(k, o.(swagger := Some(false)))) == []
    ensures Build(k, o.(swagger := Some(false))) == Behaviour(Build(k, o))
  {
    var off := o.(swagger := Some(false));
    BuildSplit(k, off);
    assert MetaOf(k, off) == [];
    BehaviourWithoutMetadata(Build(k, off));
    BehaviourReadsOnlyChecks(k, off, o);
  }

  /** Whatever `swagger` says, the coercions, transforms and validators of a
      builder are the same. */
  lemma SwaggerKeepsBehaviour(k: Kind, o: FieldOptions, swagger: Option<bool>)
    ensures Behaviour(Build(k, o.(swagger := swagger))) == Behaviour(Build(k, o))
  {
    BehaviourReadsOnlyChecks(k, o.(swagger := swagger), o);
  }

  lemma MetaOfEntries(k: Kind, o: FieldOptions)
    ensures |MetaOf(k, o)| == MetadataCount(k, o)
    ensures forall d | d in MetaOf(k, o) && IsMetadata(d) :: d.meta.required == o.required
  {
  }

  /** A builder publishes one metadata entry (two for EmailField, none when
      switched off), and UUIDField and DateField always publish theirs. No
      base builder sets `required` itself: each entry carries the caller's. */
  lemma MetadataEntries(k: Kind, o: FieldOptions)
    ensures |Metadata(Build(k, o))| == MetadataCount(k, o)
    ensures forall d | d in Metadata(Build(k, o)) && IsMetadata(d) :: d.meta.required == o.required
  {
    BuildSplit(k, o);
    MetaOfEntries(k, o);
  }

  /** The flag that makes a builder treat its value as an array: `each` for
      Number and Enum, `isArray` for UUID, none for the others. */
  function ArrayFlag(k: Kind, o: FieldOptions): Option<bool> {
    match k
    case NumberKind | EnumKind(_) => o.each
    case UUIDKind => o.isArray
    case _ => None
  }

  lemma PlainToArray(k: Kind, o: FieldOptions)
    ensures ToArray in Plain(k, o) <==> IsTrue(ArrayFlag(k, o))
  {
  }

  /** A stack with no check that takes an `{ each }` flag satisfies any flag. */
  lemma NoEachFlags(ds: seq<Decorator>, each: Option<bool>)
    requires forall d | d in ds :: !TakesEach(d)
    ensures EachFlagsAre(ds, each)
  {
  }

  lemma NumberEachFlags(o: FieldOptions)
    ensures EachFlagsAre(Plain(NumberKind, o), o.each)
  {
    NumberCheckEntries(o);
  }

  lemma StringChecksTakeNoEach(o: FieldOptions)
    ensures forall d | d in StringChecks(o) :: !TakesEach(d)
  {
    StringCheckEntries(o);
  }

  lemma EnumEachFlags(vs: set<Value>, o: FieldOptions)
    ensures EachFlagsAre(Plain(EnumKind(vs), o), o.each)
  {
    assert forall d | d in Plain(EnumKind(vs), o) :: d == IsEnum(vs, o.each) || d == ToArray;
  }

  lemma UUIDEachFlags(o: FieldOptions)
    ensures EachFlagsAre(Plain(UUIDKind, o), o.isArray)
  {
    assert forall d | d in Plain(UUIDKind, o) :: d == IsUUID("4", o.isArray) || d == ArrayNotEmpty || d == ToArray;
  }

  lemma PlainEachFlags(k: Kind, o: FieldOptions)
    ensures EachFlagsAre(Plain(k, o), ArrayFlag(k, o))
  {
    match k
    case NumberKind => NumberEachFlags(o);
    case StringKind | URLKind =>
      StringChecksTakeNoEach(o);
      NoEachFlags(Plain(k, o), None);
    case PasswordKind =>
      StringChecksTakeNoEach(PasswordOptions(o));
      NoEachFlags(Plain(k, o), None);
    case EmailKind =>
      StringChecksTakeNoEach(EmailStringOptions(o));
      NoEachFlags(Plain(k, o), None);
    case EnumKind(vs) => EnumEachFlags(vs, o);
    case UUIDKind => UUIDEachFlags(o);
    case BooleanKind | TranslationsKind(_) | PhoneKind | DateKind => NoEachFlags(Plain(k, o), None);
  }

  /** `ToArray` is pushed exactly when the array flag is set, and every
      per-element validator carries that same flag. */
  lemma ToArrayExactlyWhenArrayFlag(k: Kind, o: FieldOptions)
    ensures ToArray in Build(k, o) <==> IsTrue(ArrayFlag(k, o))
    ensures EachFlagsAre(Build(k, o), ArrayFlag(k, o))
  {
    BuildSplit(k, o);
    PlainToArray(k, o);
    PlainEachFlags(k, o);
    BehaviourKeepsEntries(Build(k, o), ArrayFlag(k, o));
    assert IsBehaviour(ToArray);
  }
}
