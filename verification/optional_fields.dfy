/**
 The `*Optional` variants of the field builders. Each one puts `IsOptional`
 in front of its base builder's stack and differs from the base at most in
 the `required` key it publishes: DateFieldOptional forces it to false;
 String, Password, Boolean, Enum, Phone and UUID default it to false; Number,
 Email, URL and Translations leave it as the caller gave it.
 */
module OptionalFields {
  import opened FieldOptions
  import opened Decorators
  import opened FieldBuilders
  import opened FieldKinds

  /** The options with `required` defaulted to false: optional unless the
      caller says otherwise. */
  function DefaultNotRequired(o: FieldOptions): (o': FieldOptions)
    ensures o'.required == OrDefault(o.required, false)
    ensures o'.(required := o.required) == o
  {
    o.(required := OrDefault(o.required, false))
  }

  /** The metadata entries of `[IsOptional] + base` are those of `base`, each
      publishing the `required` key the base builder was given. */
  predicate PublishesRequired(r: seq<Decorator>, required: Option<bool>) {
    forall d | d in Metadata(r) && IsMetadata(d) :: d.meta.required == required
  }

  function NumberFieldOptional(o: FieldOptions): (r: seq<Decorator>)
    ensures |r| >= 1 && r[0] == IsOptional
    ensures Behaviour(r) == [IsOptional] + Behaviour(NumberField(o))
    ensures PublishesRequired(r, o.required)
  {
    OptionalShape(NumberKind, o, NumberField(o));
    [IsOptional] + NumberField(o)
  }

  function StringFieldOptional(o: FieldOptions): (r: seq<Decorator>)
    ensures |r| >= 1 && r[0] == IsOptional
    ensures Behaviour(r) == [IsOptional] + Behaviour(StringField(o))
    ensures PublishesRequired(r, OrDefault(o.required, false))
  {
    var o' := DefaultNotRequired(o);
    OptionalShape(StringKind, o', StringField(o'));
    BehaviourReadsOnlyChecks(StringKind, o', o);
    [IsOptional] + StringField(o')
  }

  function PasswordFieldOptional(o: FieldOptions): (r: seq<Decorator>)
    ensures |r| >= 1 && r[0] == IsOptional
    ensures Behaviour(r) == [IsOptional] + Behaviour(PasswordField(o))
    ensures PublishesRequired(r, OrDefault(o.required, false))
  {
    var o' := DefaultNotRequired(o);
    OptionalShape(PasswordKind, o', PasswordField(o'));
    BehaviourReadsOnlyChecks(PasswordKind, o', o);
    [IsOptional] + PasswordField(o')
  }

  function BooleanFieldOptional(o: FieldOptions): (r: seq<Decorator>)
    ensures |r| >= 1 && r[0] == IsOptional
    ensures Behaviour(r) == [IsOptional] + Behaviour(BooleanField(o))
    ensures PublishesRequired(r, OrDefault(o.required, false))
  {
    var o' := DefaultNotRequired(o);
    OptionalShape(BooleanKind, o', BooleanField(o'));
    BehaviourReadsOnlyChecks(BooleanKind, o', o);
    [IsOptional] + BooleanField(o')
  }

  function TranslationsFieldOptional(o: FieldOptions, languageCount: int): (r: seq<Decorator>)
    ensures |r| >= 1 && r[0] == IsOptional
    ensures Behaviour(r) == [IsOptional] + Behaviour(TranslationsField(o, languageCount))
    ensures PublishesRequired(r, o.required)
  {
    OptionalShape(TranslationsKind(languageCount), o, TranslationsField(o, languageCount));
    [IsOptional] + TranslationsField(o, languageCount)
  }

  function EnumFieldOptional(enumValues: set<Value>, o: FieldOptions): (r: seq<Decorator>)
    ensures |r| >= 1 && r[0] == IsOptional
    ensures Behaviour(r) == [IsOptional] + Behaviour(EnumField(enumValues, o))
    ensures PublishesRequired(r, OrDefault(o.required, false))
  {
    var o' := DefaultNotRequired(o);
    OptionalShape(EnumKind(enumValues), o', EnumField(enumValues, o'));
    BehaviourReadsOnlyChecks(EnumKind(enumValues), o', o);
    [IsOptional] + EnumField(enumValues, o')
  }

  function EmailFieldOptional(o: FieldOptions): (r: seq<Decorator>)
    ensures |r| >= 1 && r[0] == IsOptional
    ensures Behaviour(r) == [IsOptional] + Behaviour(EmailField(o))
    ensures PublishesRequired(r, o.required)
  {
    OptionalShape(EmailKind, o, EmailField(o));
    [IsOptional] + EmailField(o)
  }

  function PhoneFieldOptional(o: FieldOptions): (r: seq<Decorator>)
    ensures |r| >= 1 && r[0] == IsOptional
    ensures Behaviour(r) == [IsOptional] + Behaviour(PhoneField(o))
    ensures PublishesRequired(r, OrDefault(o.required, false))
  {
    var o' := DefaultNotRequired(o);
    OptionalShape(PhoneKind, o', PhoneField(o'));
    BehaviourReadsOnlyChecks(PhoneKind, o', o);
    [IsOptional] + PhoneField(o')
  }

  /** The variant accepts `each` as well, but UUIDField reads only `isArray`. */
  function UUIDFieldOptional(o: FieldOptions): (r: seq<Decorator>)
    ensures |r| >= 1 && r[0] == IsOptional
    ensures Behaviour(r) == [IsOptional] + Behaviour(UUIDField(o))
    ensures PublishesRequired(r, OrDefault(o.required, false))
  {
    var o' := DefaultNotRequired(o);
    OptionalShape(UUIDKind, o', UUIDField(o'));
    BehaviourReadsOnlyChecks(UUIDKind, o', o);
    [IsOptional] + UUIDField(o')
  }

  function URLFieldOptional(o: FieldOptions): (r: seq<Decorator>)
    ensures |r| >= 1 && r[0] == IsOptional
    ensures Behaviour(r) == [IsOptional] + Behaviour(URLField(o))
    ensures PublishesRequired(r, o.required)
  {
    OptionalShape(URLKind, o, URLField(o));
    [IsOptional] + URLField(o)
  }

  /** `required` is set to false after the caller's options are copied, so
      it overrides whatever the caller gave. */
  function DateFieldOptional(o: FieldOptions): (r: seq<Decorator>)
    ensures |r| >= 1 && r[0] == IsOptional
    ensures Behaviour(r) == [IsOptional] + Behaviour(DateField(o))
    ensures PublishesRequired(r, Some(false))
  {
    var o' := o.(required := Some(false));
    OptionalShape(DateKind, o', DateField(o'));
    BehaviourReadsOnlyChecks(DateKind, o', o);
    [IsOptional] + DateField(o')
  }

  /** Putting `IsOptional` in front of a base stack keeps its metadata, and
      that metadata publishes the `required` key the base was given. */
  lemma OptionalShape(k: Kind, o: FieldOptions, base: seq<Decorator>)
    requires base == Build(k, o)
    ensures Metadata([IsOptional] + base) == Metadata(base)
    ensures Behaviour([IsOptional] + base) == [IsOptional] + Behaviour(base)
    ensures PublishesRequired([IsOptional] + base, o.required)
  {
    PrependBehaviour(IsOptional, base);
    MetadataEntries(k, o);
  }

  function BuildOptional(k: Kind, o: FieldOptions): seq<Decorator> {
    match k
    case NumberKind => NumberFieldOptional(o)
    case StringKind => StringFieldOptional(o)
    case PasswordKind => PasswordFieldOptional(o)
    case BooleanKind => BooleanFieldOptional(o)
    case TranslationsKind(n) => TranslationsFieldOptional(o, n)
    case EnumKind(vs) => EnumFieldOptional(vs, o)
    case EmailKind => EmailFieldOptional(o)
    case PhoneKind => PhoneFieldOptional(o)
    case UUIDKind => UUIDFieldOptional(o)
    case URLKind => URLFieldOptional(o)
    case DateKind => DateFieldOptional(o)
  }

  /** How an `*Optional` variant treats the published `required` key. */
  datatype RequiredPolicy =
    | ForcedFalse     // false whatever the caller gave
    | DefaultFalse    // false unless the caller gave a value
    | Untouched       // the caller's value, or none

  function OptionalPolicy(k: Kind): RequiredPolicy {
    match k
    case DateKind => ForcedFalse
    case StringKind | PasswordKind | BooleanKind | EnumKind(_) | PhoneKind | UUIDKind => DefaultFalse
    case NumberKind | EmailKind | URLKind | TranslationsKind(_) => Untouched
  }

  /** The `required` key the base builder receives from the `*Optional` variant. */
  function RequiredWhenOptional(k: Kind, o: FieldOptions): Option<bool> {
    match OptionalPolicy(k)
    case ForcedFalse => Some(false)
    case DefaultFalse => OrDefault(o.required, false)
    case Untouched => o.required
  }

  /** Every `*Optional` variant is `IsOptional` followed by its base builder,
      given the options with `required` as the variant's policy says. */
  lemma OptionalWrapsBase(k: Kind, o: FieldOptions)
    ensures BuildOptional(k, o) == [IsOptional] + Build(k, o.(required := RequiredWhenOptional(k, o)))
  {
    match k
    case DateKind =>
    case StringKind | PasswordKind | BooleanKind | EnumKind(_) | PhoneKind | UUIDKind =>
      assert RequiredWhenOptional(k, o) == DefaultNotRequired(o).required;
    case NumberKind | EmailKind | URLKind | TranslationsKind(_) =>
      assert o.(required := RequiredWhenOptional(k, o)) == o;
  }

  /** An `*Optional` variant adds `IsOptional` in front and changes no other
      coercion, transform or validator of its base builder. */
  lemma OptionalAddsOnlyIsOptional(k: Kind, o: FieldOptions)
    ensures Behaviour(BuildOptional(k, o)) == [IsOptional] + Behaviour(Build(k, o))
    ensures Metadata(BuildOptional(k, o)) == Metadata(Build(k, o.(required := RequiredWhenOptional(k, o))))
  {
    var o' := o.(required := RequiredWhenOptional(k, o));
    OptionalWrapsBase(k, o);
    PrependBehaviour(IsOptional, Build(k, o'));
    BehaviourReadsOnlyChecks(k, o', o);
  }

  /** The metadata of an `*Optional` variant publishes `required` as the
      variant's policy says, in as many entries as the base builder. */
  lemma OptionalMetadataRequired(k: Kind, o: FieldOptions)
    ensures |Metadata(BuildOptional(k, o))| == |Metadata(Build(k, o))|
    ensures forall d | d in Metadata(BuildOptional(k, o)) && IsMetadata(d) ::
      d.meta.required == RequiredWhenOptional(k, o)
    ensures k.DateKind? ==> forall d | d in Metadata(BuildOptional(k, o)) && IsMetadata(d) ::
      d.meta.required == Some(false)
  {
    var o' := o.(required := RequiredWhenOptional(k, o));
    OptionalAddsOnlyIsOptional(k, o);
    MetadataEntries(k, o);
    MetadataEntries(k, o');
    assert MetadataCount(k, o') == MetadataCount(k, o);
  }
}
