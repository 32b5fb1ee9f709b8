/**
 The decorators a field builder stacks on a DTO property, one constructor per
 decorator factory the builders call, and the list operations used to talk
 about a stack: selecting the metadata entries and the behaviour
 (coercions, transforms and validators) apart.
 */
module Decorators {
  import opened FieldOptions

  /** A raw field value as the validation engine sees it. */
  datatype Value =
    | Undefined
    | Null
    | Num(n: real)
    | Str(s: string)
    | Bool(b: bool)
    | Arr(items: seq<Value>)
    | Obj(tag: string)

  datatype Decorator =
    // class-transformer: coercion and transforms
    | TypeOf(target: Option<TypeRef>)             // Type(() => target)
    | ToArray
    | ToBoolean
    | Trim
    | ToLowerCase
    | ToUpperCase
    | PhoneNumberSerializer
    // class-validator: validators; `each` is the `{ each }` option as passed
    | IsOptional
    | IsNotEmpty
    | IsString
    | IsBoolean
    | IsDate
    | IsEmail
    | IsUrl
    | IsPhoneNumber
    | IsPassword
    | IsInt(each: Option<bool>)
    | IsNumber(each: Option<bool>)
    | Min(bound: real, each: Option<bool>)
    | Max(bound: real, each: Option<bool>)
    | IsPositive(each: Option<bool>)
    | MinLength(limit: int)
    | MaxLength(limit: int)
    | ArrayMinSize(size: int)
    | ArrayMaxSize(size: int)
    | ArrayNotEmpty
    | ValidateNested(each: Option<bool>)
    | IsEnum(values: set<Value>, each: Option<bool>)
    | IsUUID(version: string, each: Option<bool>)
    // schema metadata read by the API-schema publisher
    | ApiProperty(meta: FieldOptions)
    | ApiEnumProperty(values: set<Value>, meta: FieldOptions)
    | ApiUUIDProperty(meta: FieldOptions)

  predicate IsMetadata(d: Decorator) {
    d.ApiProperty? || d.ApiEnumProperty? || d.ApiUUIDProperty?
  }

  /** Everything that is not metadata: coercions, transforms and validators. */
  predicate IsBehaviour(d: Decorator) {
    !IsMetadata(d)
  }

  /** The entries of `ds` satisfying `p`, in their original order. */
  function Select(ds: seq<Decorator>, p: Decorator -> bool): (r: seq<Decorator>)
    ensures |r| <= |ds|
  {
    if ds == [] then []
    else if p(ds[0]) then [ds[0]] + Select(ds[1..], p)
    else Select(ds[1..], p)
  }

  /** An entry is selected exactly when it is in the stack and satisfies `p`. */
  lemma {:induction false} SelectMembers(ds: seq<Decorator>, p: Decorator -> bool)
    ensures forall d :: d in Select(ds, p) <==> d in ds && p(d)
  {
    if ds != [] {
      SelectMembers(ds[1..], p);
      assert forall d :: d in ds <==> d == ds[0] || d in ds[1..];
    }
  }

  lemma {:induction false} SelectAppend(a: seq<Decorator>, b: seq<Decorator>, p: Decorator -> bool)
    ensures Select(a + b, p) == Select(a, p) + Select(b, p)
  {
    if a == [] {
      assert a + b == b;
    } else {
      assert (a + b)[0] == a[0];
      assert (a + b)[1..] == a[1..] + b;
      SelectAppend(a[1..], b, p);
    }
  }

  /** A check the builders configure with an `{ each }` flag taken from the
      caller's options. */
  predicate TakesEach(d: Decorator) {
    d.IsInt? || d.IsNumber? || d.Min? || d.Max? || d.IsPositive? || d.IsEnum? || d.IsUUID?
  }

  /** The `{ each }` flag every such check of a stack carries. */
  predicate EachFlagsAre(ds: seq<Decorator>, each: Option<bool>) {
    forall d | d in ds && TakesEach(d) :: d.each == each
  }

  /** Selecting from a stack in which every entry satisfies `p` keeps all of it. */
  lemma {:induction false} SelectAll(ds: seq<Decorator>, p: Decorator -> bool)
    requires forall d | d in ds :: p(d)
    ensures Select(ds, p) == ds
  {
    if ds != [] {
      assert forall d | d in ds[1..] :: d in ds;
      SelectAll(ds[1..], p);
      assert ds == [ds[0]] + ds[1..];
    }
  }

  /** Selecting from a stack in which no entry satisfies `p` keeps nothing. */
  lemma {:induction false} SelectNone(ds: seq<Decorator>, p: Decorator -> bool)
    requires forall d | d in ds :: !p(d)
    ensures Select(ds, p) == []
  {
    if ds != [] {
      assert forall d | d in ds[1..] :: d in ds;
      SelectNone(ds[1..], p);
    }
  }

  /** The metadata entries of a stack. */
  function Metadata(ds: seq<Decorator>): seq<Decorator> {
    Select(ds, IsMetadata)
  }

  /** A stack with its metadata entries removed. */
  function Behaviour(ds: seq<Decorator>): seq<Decorator> {
    Select(ds, IsBehaviour)
  }

  predicate NoMetadata(ds: seq<Decorator>) {
    forall d | d in ds :: IsBehaviour(d)
  }

  predicate OnlyMetadata(ds: seq<Decorator>) {
    forall d | d in ds :: IsMetadata(d)
  }

  /** Removing the metadata from a stack whose metadata entries sit together
      between two metadata-free parts. */
  lemma BehaviourAroundMetadata(a: seq<Decorator>, m: seq<Decorator>, b: seq<Decorator>)
    requires NoMetadata(a) && OnlyMetadata(m) && NoMetadata(b)
    ensures Behaviour(a + m + b) == a + b
  {
    assert forall d | d in m :: !IsBehaviour(d);
    SelectNone(m, IsBehaviour);
    SelectAll(a, IsBehaviour);
    SelectAll(b, IsBehaviour);
    SelectAppend(a, m, IsBehaviour);
    assert Select(a + m, IsBehaviour) == a;
    SelectAppend(a + m, b, IsBehaviour);
  }

  /** Keeping only the metadata of such a stack. */
  lemma MetadataAroundMetadata(a: seq<Decorator>, m: seq<Decorator>, b: seq<Decorator>)
    requires NoMetadata(a) && OnlyMetadata(m) && NoMetadata(b)
    ensures Metadata(a + m + b) == m
  {
    SelectAppend(a + m, b, IsMetadata);
    SelectAppend(a, m, IsMetadata);
    SelectAll(m, IsMetadata);
    SelectNone(a, IsMetadata);
    SelectNone(b, IsMetadata);
    assert Select(a + m, IsMetadata) == [] + m;
  }

  /** A stack without metadata entries is its own behaviour. */
  lemma BehaviourWithoutMetadata(ds: seq<Decorator>)
    requires Metadata(ds) == []
    ensures Behaviour(ds) == ds
  {
    SelectMembers(ds, IsMetadata);
    assert forall d | d in ds :: IsBehaviour(d);
    SelectAll(ds, IsBehaviour);
  }

  /** Putting one non-metadata entry in front of a stack puts it in front of
      the stack's behaviour and leaves the metadata as it was. */
  lemma PrependBehaviour(d: Decorator, ds: seq<Decorator>)
    requires IsBehaviour(d)
    ensures Behaviour([d] + ds) == [d] + Behaviour(ds)
    ensures Metadata([d] + ds) == Metadata(ds)
  {
    assert ([d] + ds)[0] == d;
    assert ([d] + ds)[1..] == ds;
  }

  /** Removing the metadata keeps every other entry and so every `each` flag. */
  lemma BehaviourKeepsEntries(ds: seq<Decorator>, each: Option<bool>)
    ensures forall d | IsBehaviour(d) :: d in ds <==> d in Behaviour(ds)
    ensures EachFlagsAre(Behaviour(ds), each) ==> EachFlagsAre(ds, each)
  {
    SelectMembers(ds, IsBehaviour);
  }
}
