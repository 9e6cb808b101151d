/**
 * schema-filler.ts: a value made up for a schema, against a validator of values, and exactly which
 * schemas are filled with a value that validates.
 */
module SchemaFiller {
  import opened Core

  datatype StringCheck = EmailCheck | UrlCheck | UuidCheck | AtLeast(n: nat) | AtMost(n: nat)

  datatype Value =
    | Null
    | Undefined
    | Text(text: string)
    | Number(number: real)
    | Truth(truth: bool)
    | Date(epoch: int)
    | List(items: seq<Value>)
    | Object(members: seq<Member>)

  datatype Member = Member(key: string, value: Value)

  /** The kinds of schema; `Other` stands for every kind the filler has no case for. */
  datatype Schema =
    | StringOf(checks: seq<StringCheck>)
    | NumberOf(least: Option<real>, most: Option<real>)
    | BooleanOf
    | DateOf
    | LiteralOf(literal: Value)
    | EnumOf(values: seq<string>)
    | NativeEnumOf(entries: seq<Member>)
    | OptionalOf(inner: Schema)
    | NullableOf(inner: Schema)
    | DefaultOf(inner: Schema, default: Value)
    | ArrayOf(minLength: Option<nat>, maxLength: Option<nat>, element: Schema)
    | ObjectOf(fields: seq<Field>)
    | UnionOf(first: Schema, rest: seq<Schema>)
    | RecordOf(element: Schema)
    | AnythingOf
    | Other(acceptsNull: bool)

  datatype Field = Field(key: string, schema: Schema)

  // ---------- fillSchema ----------

  function Decimal(n: nat): string { if n < 10 then [Digit(n)] else Decimal(n / 10) + [Digit(n % 10)] }

  function Digit(n: nat): char
    requires n < 10
  {
    "0123456789"[n]
  }

  const UUID := "00000000-0000-4000-8000-000000000000"

  function BuildString(checks: seq<StringCheck>, seed: string): string {
    if EmailCheck in checks then seed + "@example.com"
    else if UrlCheck in checks then "https://example.com"
    else if UuidCheck in checks then UUID
    else "דוגמה " + seed
  }

  function Build(s: Schema, seed: string, depth: nat): Value
    decreases s, 0
  {
    if depth > 8 then Null
    else
      match s
      case StringOf(checks) => Text(BuildString(checks, seed))
      case NumberOf(_, _) => Number(1.0)
      case BooleanOf => Truth(true)
      case DateOf => Date(0)
      case LiteralOf(v) => v
      case EnumOf(values) => if values == [] then Undefined else Text(values[0])
      case NativeEnumOf(entries) => if entries == [] then Undefined else entries[0].value
      case OptionalOf(inner) => Build(inner, seed, depth + 1)
      case NullableOf(inner) => Build(inner, seed, depth + 1)
      case DefaultOf(_, v) => v
      case ArrayOf(min, _, element) => List(BuildItems(element, seed, depth + 1, ItemCount(min)))
      case ObjectOf(fields) => Object(BuildFields(fields, seed, depth + 1))
      case UnionOf(first, _) => Build(first, seed, depth + 1)
      case RecordOf(_) => Object([])
      case AnythingOf => Object([])
      case Other(_) => Null
  }

  function ItemCount(min: Option<nat>): nat { Max(min.GetOr(1), 1) }

  function ItemSeed(seed: string, i: nat): string { seed + "-" + Decimal(i) }

  function BuildItems(s: Schema, seed: string, depth: nat, n: nat): seq<Value>
    decreases s, n
  {
    if n == 0 then [] else BuildItems(s, seed, depth, n - 1) + [Build(s, ItemSeed(seed, n - 1), depth)]
  }

  function BuildFields(fields: seq<Field>, seed: string, depth: nat): seq<Member>
    decreases fields, 0
  {
    if fields == [] then []
    else [Member(fields[0].key, Build(fields[0].schema, seed + "-" + fields[0].key, depth))] + BuildFields(fields[1..], seed, depth)
  }

  function FillSchema(s: Schema, seed: string): Value { Build(s, seed, 0) }

  // ---------- The validator ----------

  predicate IsAlnum(c: char) { 'a' <= c <= 'z' || 'A' <= c <= 'Z' || '0' <= c <= '9' }

  predicate EndsLocal(c: char) { IsAlnum(c) || c == '_' || c == '+' || c == '-' }

  predicate IsLocalChar(c: char) { EndsLocal(c) || c == '.' || c == '\'' }

  predicate NoDoubleDot(s: string) { forall i :: 0 <= i < |s| - 1 ==> !(s[i] == '.' && s[i + 1] == '.') }

  /** What may follow "<local part>-" in a local part. */
  predicate IsLocalTail(s: string) {
    s != "" && (forall i :: 0 <= i < |s| ==> IsLocalChar(s[i])) && EndsLocal(s[|s| - 1]) && NoDoubleDot(s)
  }

  /** The schema library's pattern for the part of an email address before the @. */
  predicate IsLocal(s: string) { IsLocalTail(s) && s[0] != '.' }

  predicate IsLabel(s: string) { s != "" && IsAlnum(s[0]) && forall i :: 0 <= i < |s| ==> IsAlnum(s[i]) || s[i] == '-' }

  predicate IsTopLevel(s: string) { |s| >= 2 && forall i :: 0 <= i < |s| ==> 'a' <= s[i] <= 'z' || 'A' <= s[i] <= 'Z' }

  /** Labels with a dot after each, and a top level. */
  predicate IsDomain(s: string)
    decreases |s|
  {
    exists i :: 0 < i < |s| && s[i] == '.' && IsLabel(s[..i]) && (IsTopLevel(s[i + 1..]) || IsDomain(s[i + 1..]))
  }

  ghost predicate IsEmail(s: string) { exists local, domain :: IsLocal(local) && IsDomain(domain) && s == local + "@" + domain }

  /** Stricter than a URL parser; the filler only ever needs one. */
  ghost predicate IsUrl(s: string) { exists domain :: IsDomain(domain) && s == "https://" + domain }

  predicate IsHex(c: char) { 'a' <= c <= 'f' || 'A' <= c <= 'F' || '0' <= c <= '9' }

  predicate IsUuid(s: string) {
    |s| == 36 && forall i :: 0 <= i < 36 ==> if i in {8, 13, 18, 23} then s[i] == '-' else IsHex(s[i])
  }

  ghost predicate Passes(c: StringCheck, s: string) {
    match c
    case EmailCheck => IsEmail(s)
    case UrlCheck => IsUrl(s)
    case UuidCheck => IsUuid(s)
    case AtLeast(n) => n <= |s|
    case AtMost(n) => |s| <= n
  }

  /** The reverse entries of a numeric enum, which its object has beside the real ones, do not count. */
  predicate IsReverse(entries: seq<Member>, k: nat)
    requires k < |entries|
  {
    entries[k].value.Text? && exists j :: 0 <= j < |entries| && entries[j].key == entries[k].value.text && entries[j].value.Number?
  }

  predicate IsEnumValue(entries: seq<Member>, v: Value) {
    exists k :: 0 <= k < |entries| && entries[k].value == v && !IsReverse(entries, k)
  }

  predicate Between(least: Option<real>, x: real, most: Option<real>) { least.GetOr(x) <= x <= most.GetOr(x) }

  ghost predicate Valid(s: Schema, v: Value)
    decreases s
  {
    match s
    case StringOf(checks) => v.Text? && forall c :: c in checks ==> Passes(c, v.text)
    case NumberOf(least, most) => v.Number? && Between(least, v.number, most)
    case BooleanOf => v.Truth?
    case DateOf => v.Date?
    case LiteralOf(l) => v == l
    case EnumOf(values) => v.Text? && v.text in values
    case NativeEnumOf(entries) => IsEnumValue(entries, v)
    case OptionalOf(inner) => v == Undefined || Valid(inner, v)
    case NullableOf(inner) => v == Null || Valid(inner, v)
    case DefaultOf(inner, d) => Valid(inner, if v == Undefined then d else v)
    case ArrayOf(min, max, element) =>
      v.List? && min.GetOr(0) <= |v.items| <= max.GetOr(|v.items|) && forall i :: 0 <= i < |v.items| ==> Valid(element, v.items[i])
    case ObjectOf(fields) =>
      && v.Object? && |v.members| == |fields|
      && forall i :: 0 <= i < |fields| ==> v.members[i].key == fields[i].key && Valid(fields[i].schema, v.members[i].value)
    case UnionOf(first, rest) => Valid(first, v) || exists i :: 0 <= i < |rest| && Valid(rest[i], v)
    case RecordOf(element) => v.Object? && forall i :: 0 <= i < |v.members| ==> Valid(element, v.members[i].value)
    case AnythingOf => true
    case Other(acceptsNull) => acceptsNull && v == Null
  }

  // ---------- Exactly which schemas are filled validly ----------

  predicate IsFormat(c: StringCheck) { c.EmailCheck? || c.UrlCheck? || c.UuidCheck? }

  function BuiltLength(checks: seq<StringCheck>, seed: string): nat {
    if EmailCheck in checks then |seed| + 12 else if UrlCheck in checks then 19 else if UuidCheck in checks then 36 else |seed| + 6
  }

  /** One format at most, a seed that may stand before the @ if that is email, and lengths that fit. */
  predicate StringFits(checks: seq<StringCheck>, seed: string) {
    && (forall c, d :: c in checks && d in checks && IsFormat(c) && IsFormat(d) ==> c == d)
    && (EmailCheck in checks ==> IsLocal(seed))
    && (forall c :: c in checks ==> (c.AtLeast? ==> c.n <= BuiltLength(checks, seed)) && (c.AtMost? ==> BuiltLength(checks, seed) <= c.n))
  }

  /** Past the depth limit the filler puts null, whatever the schema. */
  predicate AcceptsNull(s: Schema)
    decreases s
  {
    match s
    case LiteralOf(l) => l == Null
    case NativeEnumOf(entries) => IsEnumValue(entries, Null)
    case OptionalOf(inner) => AcceptsNull(inner)
    case NullableOf(_) => true
    case DefaultOf(inner, _) => AcceptsNull(inner)
    case UnionOf(first, rest) => AcceptsNull(first) || exists i :: 0 <= i < |rest| && AcceptsNull(rest[i])
    case AnythingOf => true
    case Other(acceptsNull) => acceptsNull
    case _ => false
  }

  predicate BuildsNull(s: Schema, depth: nat)
    decreases s
  {
    depth > 8 ||
    match s
    case LiteralOf(l) => l == Null
    case NativeEnumOf(entries) => entries != [] && entries[0].value == Null
    case OptionalOf(inner) => BuildsNull(inner, depth + 1)
    case NullableOf(inner) => BuildsNull(inner, depth + 1)
    case DefaultOf(_, d) => d == Null
    case UnionOf(first, _) => BuildsNull(first, depth + 1)
    case Other(_) => true
    case _ => false
  }

  predicate BuildsUndefined(s: Schema, depth: nat)
    decreases s
  {
    depth <= 8 &&
    match s
    case LiteralOf(l) => l == Undefined
    case EnumOf(values) => values == []
    case NativeEnumOf(entries) => entries == [] || entries[0].value == Undefined
    case OptionalOf(inner) => BuildsUndefined(inner, depth + 1)
    case NullableOf(inner) => BuildsUndefined(inner, depth + 1)
    case DefaultOf(_, d) => d == Undefined
    case UnionOf(first, _) => BuildsUndefined(first, depth + 1)
    case _ => false
  }

  /**
   * What a caller can read off the schema before filling it. Of a union the first option counts;
   * only when that does not fit does it matter whether another one takes what the first was given.
   */
  ghost predicate Fits(s: Schema, seed: string, depth: nat)
    decreases s
  {
    if depth > 8 then AcceptsNull(s)
    else
      match s
      case StringOf(checks) => StringFits(checks, seed)
      case NumberOf(least, most) => Between(least, 1.0, most)
      case EnumOf(values) => values != []
      case NativeEnumOf(entries) => entries != [] && IsEnumValue(entries, entries[0].value)
      case OptionalOf(inner) => BuildsUndefined(inner, depth + 1) || Fits(inner, seed, depth + 1)
      case NullableOf(inner) => BuildsNull(inner, depth + 1) || Fits(inner, seed, depth + 1)
      case DefaultOf(inner, d) => Valid(inner, d)
      case ArrayOf(min, max, element) =>
        && ItemCount(min) <= max.GetOr(ItemCount(min))
        && forall i :: 0 <= i < ItemCount(min) ==> Fits(element, ItemSeed(seed, i), depth + 1)
      case ObjectOf(fields) => forall i :: 0 <= i < |fields| ==> Fits(fields[i].schema, seed + "-" + fields[i].key, depth + 1)
      case UnionOf(first, rest) =>
        Fits(first, seed, depth + 1) || exists i :: 0 <= i < |rest| && Valid(rest[i], Build(first, seed, depth + 1))
      case Other(acceptsNull) => acceptsNull
      case _ => true
  }

  // ---------- Strings ----------

  predicate Lacks(s: string, c: char) { forall i :: 0 <= i < |s| ==> s[i] != c }

  lemma {:induction false} DomainLacks(s: string, c: char)
    requires IsDomain(s) && !IsAlnum(c) && c != '-' && c != '.'
    ensures Lacks(s, c)
    decreases |s|
  {
    var i :| 0 < i < |s| && s[i] == '.' && IsLabel(s[..i]) && (IsTopLevel(s[i + 1..]) || IsDomain(s[i + 1..]));
    var head, tail := s[..i], s[i + 1..];
    if IsDomain(tail) { DomainLacks(tail, c); }
    forall k | 0 <= k < |s| ensures s[k] != c {
      if k < i { assert s[k] == head[k]; } else if k > i { assert s[k] == tail[k - i - 1]; }
    }
  }

  lemma ExampleIsDomain()
    ensures IsDomain("example.com")
  {
    var s := "example.com";
    assert s[7] == '.' && s[..7] == "example" && s[8..] == "com";
    assert IsLabel("example") && IsTopLevel("com");
  }

  /** The built address is one exactly when the seed may stand before the @. */
  lemma EmailIff(seed: string)
    ensures IsEmail(seed + "@example.com") <==> IsLocal(seed)
  {
    hide IsLocal, IsDomain, Lacks;
    ExampleIsDomain();
    var tail := "example.com";
    var s := seed + "@example.com";
    assert "@example.com" == "@" + tail;
    assert s == seed + "@" + tail;
    if IsEmail(s) {
      var local, domain :| IsLocal(local) && IsDomain(domain) && s == local + "@" + domain;
      DomainLacks(domain, '@');
      DomainLacks(tail, '@');
      SameSplit(local, domain, seed, tail);
    }
  }

  lemma LastAt(a: string, x: string)
    requires Lacks(x, '@')
    ensures var s := a + "@" + x; s[|a|] == '@' && forall k :: |a| < k < |s| ==> s[k] != '@'
  {
  }

  lemma SameSplit(a: string, x: string, b: string, y: string)
    requires a + "@" + x == b + "@" + y && Lacks(x, '@') && Lacks(y, '@')
    ensures a == b
  {
    LastAt(a, x);
    LastAt(b, y);
    assert a == (a + "@" + x)[..|a|] && b == (b + "@" + y)[..|b|];
  }

  lemma EmailHasAt(s: string)
    requires IsEmail(s)
    ensures !Lacks(s, '@')
  {
    var local, domain :| IsLocal(local) && IsDomain(domain) && s == local + "@" + domain;
    assert s[|local|] == '@';
  }

  lemma UrlHasColon(s: string)
    requires IsUrl(s)
    ensures !Lacks(s, ':')
  {
    var domain :| IsDomain(domain) && s == "https://" + domain;
    assert s[5] == ':';
  }

  lemma JoinLacks(a: string, b: string, c: char)
    requires Lacks(a, c) && Lacks(b, c)
    ensures Lacks(a + b, c)
  {
  }

  /** An address is neither of the other formats. */
  lemma EmailIsOnlyEmail(seed: string)
    requires IsLocal(seed)
    ensures !IsUrl(seed + "@example.com") && !IsUuid(seed + "@example.com")
  {
    hide IsUrl, IsDomain;
    var s := seed + "@example.com";
    assert s[|seed|] == '@';
    ExampleIsDomain();
    DomainLacks("example.com", ':');
    assert "@example.com" == "@" + "example.com";
    JoinLacks("@", "example.com", ':');
    JoinLacks(seed, "@example.com", ':');
    if IsUrl(s) { UrlHasColon(s); }
  }

  lemma UrlIsOnlyUrl()
    ensures IsUrl("https://example.com") && !IsEmail("https://example.com") && !IsUuid("https://example.com")
  {
    hide IsDomain, IsLocal;
    ExampleIsDomain();
    DomainLacks("example.com", '@');
    var s := "https://example.com";
    assert s == "https://" + "example.com";
    JoinLacks("https://", "example.com", '@');
    if IsEmail(s) { EmailHasAt(s); }
  }

  lemma UuidFits()
    ensures IsUuid(UUID)
  {
  }

  lemma BuiltLengthIs(checks: seq<StringCheck>, seed: string)
    ensures |BuildString(checks, seed)| == BuiltLength(checks, seed)
  {
    assert |"@example.com"| == 12 && |"https://example.com"| == 19 && |UUID| == 36 && |"דוגמה "| == 6;
  }

  lemma BuiltStringFitsIff(checks: seq<StringCheck>, seed: string)
    ensures Valid(StringOf(checks), Text(BuildString(checks, seed))) <==> StringFits(checks, seed)
  {
    hide IsEmail, IsUrl, IsUuid, IsLocal, BuildString, BuiltLength;
    BuiltLengthIs(checks, seed);
    BuiltFormatIff(checks, seed);
    var s := BuildString(checks, seed);
    if StringFits(checks, seed) {
      forall c | c in checks ensures Passes(c, s) {}
    }
  }

  /** The built string has exactly one of the three formats, and that only if it is asked for first and possible. */
  lemma BuiltFormatIff(checks: seq<StringCheck>, seed: string)
    ensures var s := BuildString(checks, seed);
      (forall c :: c in checks && IsFormat(c) ==> Passes(c, s)) <==>
      (forall c, d :: c in checks && d in checks && IsFormat(c) && IsFormat(d) ==> c == d) && (EmailCheck in checks ==> IsLocal(seed))
  {
    hide IsEmail, IsUrl, IsUuid, IsLocal;
    var s := BuildString(checks, seed);
    EmailIff(seed);
    if IsLocal(seed) { EmailIsOnlyEmail(seed); }
    UrlIsOnlyUrl();
    UuidFits();
    assert forall c :: IsFormat(c) <==> c == EmailCheck || c == UrlCheck || c == UuidCheck;
    if EmailCheck in checks {
      assert Passes(EmailCheck, s) <==> IsLocal(seed);
    } else if UrlCheck in checks {
      assert Passes(UrlCheck, s) && !Passes(UuidCheck, s);
    } else if UuidCheck in checks {
      assert Passes(UuidCheck, s);
    }
  }

  // ---------- Null and undefined ----------

  lemma {:induction false} AcceptsNullIff(s: Schema)
    ensures Valid(s, Null) <==> AcceptsNull(s)
    decreases s
  {
    match s
    case OptionalOf(inner) => AcceptsNullIff(inner);
    case DefaultOf(inner, _) => AcceptsNullIff(inner);
    case UnionOf(first, rest) =>
      AcceptsNullIff(first);
      forall i | 0 <= i < |rest| ensures Valid(rest[i], Null) <==> AcceptsNull(rest[i]) { AcceptsNullIff(rest[i]); }
    case _ =>
  }

  lemma {:induction false} BuildsNullIff(s: Schema, seed: string, depth: nat)
    ensures Build(s, seed, depth) == Null <==> BuildsNull(s, depth)
    ensures Build(s, seed, depth) == Undefined <==> BuildsUndefined(s, depth)
    decreases s
  {
    if depth <= 8 {
      match s
      case OptionalOf(inner) => BuildsNullIff(inner, seed, depth + 1);
      case NullableOf(inner) => BuildsNullIff(inner, seed, depth + 1);
      case UnionOf(first, _) => BuildsNullIff(first, seed, depth + 1);
      case _ =>
    }
  }

  // ---------- The condition is exact ----------

  /** The filled value validates exactly when the schema fits, at every depth and for every seed. */
  lemma {:induction false} FilledValidatesIff(s: Schema, seed: string, depth: nat)
    ensures Valid(s, Build(s, seed, depth)) <==> Fits(s, seed, depth)
    decreases s, 0
  {
    hide StringFits, BuildString, IsEnumValue;
    if depth > 8 {
      AcceptsNullIff(s);
    } else {
      match s
      case StringOf(checks) => BuiltStringFitsIff(checks, seed);
      case NativeEnumOf(entries) => if entries == [] { NoEntriesNoValue(Undefined); }
      case OptionalOf(inner) =>
        FilledValidatesIff(inner, seed, depth + 1);
        BuildsNullIff(inner, seed, depth + 1);
      case NullableOf(inner) =>
        FilledValidatesIff(inner, seed, depth + 1);
        BuildsNullIff(inner, seed, depth + 1);
      case ArrayOf(min, _, element) => FilledItemsIff(element, seed, depth + 1, ItemCount(min));
      case ObjectOf(fields) => FilledFieldsIff(fields, seed, depth + 1);
      case UnionOf(first, _) => FilledValidatesIff(first, seed, depth + 1);
      case _ =>
    }
  }

  lemma NoEntriesNoValue(v: Value)
    ensures !IsEnumValue([], v)
  {
  }

  lemma {:induction false} FilledItemsIff(s: Schema, seed: string, depth: nat, n: nat)
    ensures |BuildItems(s, seed, depth, n)| == n
    ensures forall i :: 0 <= i < n ==> (Valid(s, BuildItems(s, seed, depth, n)[i]) <==> Fits(s, ItemSeed(seed, i), depth))
    decreases s, n
  {
    hide Fits, Valid, ItemSeed;
    if n > 0 {
      FilledItemsIff(s, seed, depth, n - 1);
      FilledValidatesIff(s, ItemSeed(seed, n - 1), depth);
    }
  }

  lemma {:induction false} FilledFieldsIff(fields: seq<Field>, seed: string, depth: nat)
    ensures var members := BuildFields(fields, seed, depth);
      && |members| == |fields|
      && forall i :: 0 <= i < |fields| ==>
           members[i].key == fields[i].key
           && (Valid(fields[i].schema, members[i].value) <==> Fits(fields[i].schema, seed + "-" + fields[i].key, depth))
    decreases fields, 0
  {
    if fields != [] {
      FilledFieldsIff(fields[1..], seed, depth);
      FilledValidatesIff(fields[0].schema, seed + "-" + fields[0].key, depth);
    }
  }

  // ---------- A condition on the schema alone ----------

  /** Some string that the filler reaches has to be an email address. */
  predicate HasEmail(s: Schema)
    decreases s
  {
    match s
    case StringOf(checks) => EmailCheck in checks
    case OptionalOf(inner) => HasEmail(inner)
    case NullableOf(inner) => HasEmail(inner)
    case ArrayOf(_, _, element) => HasEmail(element)
    case ObjectOf(fields) => exists i :: 0 <= i < |fields| && HasEmail(fields[i].schema)
    case UnionOf(first, _) => HasEmail(first)
    case _ => false
  }

  /** The shortest string built for the checks. */
  function LeastLength(checks: seq<StringCheck>): nat { BuiltLength(checks, "") }

  /**
   * Formats, bounds, enums and defaults that fit whatever the seed; only above an email address do
   * the keys on the way matter.
   */
  ghost predicate Fillable(s: Schema)
    decreases s
  {
    match s
    case StringOf(checks) =>
      && (forall c, d :: c in checks && d in checks && IsFormat(c) && IsFormat(d) ==> c == d)
      && (forall c :: c in checks && c.AtLeast? ==> c.n <= LeastLength(checks))
      && (forall c :: c in checks && c.AtMost? ==>
            EmailCheck !in checks && (UrlCheck in checks || UuidCheck in checks) && LeastLength(checks) <= c.n)
    case NumberOf(least, most) => Between(least, 1.0, most)
    case EnumOf(values) => values != []
    case NativeEnumOf(entries) => entries != [] && IsEnumValue(entries, entries[0].value)
    case OptionalOf(inner) => Fillable(inner)
    case NullableOf(inner) => Fillable(inner)
    case DefaultOf(inner, v) => Valid(inner, v)
    case ArrayOf(min, max, element) => ItemCount(min) <= max.GetOr(ItemCount(min)) && Fillable(element)
    case ObjectOf(fields) =>
      forall i :: 0 <= i < |fields| ==>
        Fillable(fields[i].schema) && (HasEmail(fields[i].schema) ==> IsLocalTail(fields[i].key))
    case UnionOf(first, _) => Fillable(first)
    case Other(acceptsNull) => acceptsNull
    case _ => true
  }

  /** How many levels the filler descends. */
  function Nesting(s: Schema): nat
    decreases s
  {
    match s
    case OptionalOf(inner) => 1 + Nesting(inner)
    case NullableOf(inner) => 1 + Nesting(inner)
    case ArrayOf(_, _, element) => 1 + Nesting(element)
    case ObjectOf(fields) => 1 + DeepestField(fields)
    case UnionOf(first, _) => 1 + Nesting(first)
    case _ => 0
  }

  function DeepestField(fields: seq<Field>): nat
    decreases fields
  {
    if fields == [] then 0 else Max(Nesting(fields[0].schema), DeepestField(fields[1..]))
  }

  lemma {:induction false} DecimalIsTail(n: nat)
    ensures IsLocalTail(Decimal(n)) && forall i :: 0 <= i < |Decimal(n)| ==> IsAlnum(Decimal(n)[i])
    decreases n
  {
    if n >= 10 { DecimalIsTail(n / 10); }
  }

  lemma LocalsJoin(a: string, b: string)
    requires IsLocal(a) && IsLocalTail(b)
    ensures IsLocal(a + "-" + b)
  {
    var s := a + "-" + b;
    forall i | 0 <= i < |s| - 1 ensures !(s[i] == '.' && s[i + 1] == '.') {
      if i < |a| - 1 { assert s[i] == a[i] && s[i + 1] == a[i + 1]; }
      if i > |a| { assert s[i] == b[i - |a| - 1] && s[i + 1] == b[i - |a|]; }
    }
  }

  lemma {:induction false} DeepestFieldBounds(fields: seq<Field>, i: nat)
    requires i < |fields|
    ensures Nesting(fields[i].schema) <= DeepestField(fields)
    decreases |fields|
  {
    if i > 0 { DeepestFieldBounds(fields[1..], i - 1); }
  }

  lemma {:induction false} FillableFits(s: Schema, seed: string, depth: nat)
    requires Fillable(s) && depth + Nesting(s) <= 8 && (HasEmail(s) ==> IsLocal(seed))
    ensures Fits(s, seed, depth)
    decreases s
  {
    hide IsEnumValue, IsLocal, IsLocalTail, Valid;
    match s
    case OptionalOf(inner) => FillableFits(inner, seed, depth + 1);
    case NullableOf(inner) => FillableFits(inner, seed, depth + 1);
    case ArrayOf(min, _, element) =>
      forall i | 0 <= i < ItemCount(min) ensures Fits(element, ItemSeed(seed, i), depth + 1) {
        DecimalIsTail(i);
        if HasEmail(element) { LocalsJoin(seed, Decimal(i)); }
        FillableFits(element, ItemSeed(seed, i), depth + 1);
      }
    case ObjectOf(fields) =>
      forall i | 0 <= i < |fields| ensures Fits(fields[i].schema, seed + "-" + fields[i].key, depth + 1) {
        DeepestFieldBounds(fields, i);
        if HasEmail(fields[i].schema) { LocalsJoin(seed, fields[i].key); }
        FillableFits(fields[i].schema, seed + "-" + fields[i].key, depth + 1);
      }
    case UnionOf(first, _) => FillableFits(first, seed, depth + 1);
    case _ =>
  }

  /**
   * fillSchema on a fillable schema of at most eight levels gives a value that validates, for every
   * seed if no email address is asked for, and else for every seed that may stand before an @.
   */
  lemma FillSchemaValidates(s: Schema, seed: string)
    requires Fillable(s) && Nesting(s) <= 8 && (HasEmail(s) ==> IsLocal(seed))
    ensures Valid(s, FillSchema(s, seed))
  {
    FillableFits(s, seed, 0);
    FilledValidatesIff(s, seed, 0);
  }

  /** The seeds the system passes are task keys, two words with a dot between them: all of them may stand before an @. */
  lemma TaskKeysMayStandBeforeAt(area: string, verb: string)
    requires area != "" && verb != ""
    requires (forall i :: 0 <= i < |area| ==> IsAlnum(area[i])) && (forall i :: 0 <= i < |verb| ==> IsAlnum(verb[i]))
    ensures IsLocal(area) && IsLocal(area + "." + verb)
  {
    var s := area + "." + verb;
    assert forall i :: 0 <= i < |area| ==> s[i] == area[i];
    assert forall i :: 0 <= i < |verb| ==> s[|area| + 1 + i] == verb[i];
    assert s[|s| - 1] == verb[|verb| - 1];
  }

  // ---------- Where the promise that mock output always validates ends ----------

  /** A schema inside k arrays. */
  function Nested(k: nat, leaf: Schema): Schema { if k == 0 then leaf else ArrayOf(None, None, Nested(k - 1, leaf)) }

  lemma ArrayFits(element: Schema, seed: string, depth: nat)
    ensures Fits(ArrayOf(None, None, element), seed, depth) <==> depth <= 8 && Fits(element, ItemSeed(seed, 0), depth + 1)
  {
    assert ItemCount(None) == 1;
  }

  lemma {:induction false} NestedFits(k: nat, leaf: Schema, seed: string, depth: nat) returns (deep: string)
    requires depth <= 9
    ensures k + depth > 9 ==> !Fits(Nested(k, leaf), seed, depth)
    ensures k + depth <= 9 ==> (Fits(Nested(k, leaf), seed, depth) <==> Fits(leaf, deep, k + depth))
    decreases k
  {
    hide Fits, ItemSeed;
    deep := seed;
    if k > 0 {
      ArrayFits(Nested(k - 1, leaf), seed, depth);
      if depth <= 8 { deep := NestedFits(k - 1, leaf, ItemSeed(seed, 0), depth + 1); }
    }
  }

  /** The depth limit bites past eight levels, where the filler puts null; a leaf that takes null reaches one level further. */
  lemma DepthLimitIff(k: nat, seed: string)
    ensures Valid(Nested(k, NumberOf(None, None)), FillSchema(Nested(k, NumberOf(None, None)), seed)) <==> k <= 8
    ensures Valid(Nested(k, NullableOf(NumberOf(None, None))), FillSchema(Nested(k, NullableOf(NumberOf(None, None))), seed)) <==> k <= 9
  {
    hide Valid, Nested, Build, Fits;
    var number := NumberOf(None, None);
    FilledValidatesIff(Nested(k, number), seed, 0);
    FilledValidatesIff(Nested(k, NullableOf(number)), seed, 0);
    var d1 := NestedFits(k, number, seed, 0);
    var d2 := NestedFits(k, NullableOf(number), seed, 0);
    if k <= 9 {
      LeavesFit(d1, k);
      LeavesFit(d2, k);
    }
  }

  lemma LeavesFit(seed: string, depth: nat)
    requires depth <= 9
    ensures Fits(NumberOf(None, None), seed, depth) <==> depth <= 8
    ensures Fits(NullableOf(NumberOf(None, None)), seed, depth)
  {
  }

  function NumericEnum(name: string, n: int): Schema {
    NativeEnumOf([Member(Decimal(0), Text(name)), Member(name, Number(n as real))])
  }

  /**
   * A numeric enum's object lists its reverse entries first, so it is filled with a name, which is
   * not a member; in a union with a string that name is taken after all.
   */
  lemma NumericEnumFails(name: string, n: int, seed: string)
    ensures !Valid(NumericEnum(name, n), FillSchema(NumericEnum(name, n), seed))
    ensures var s := UnionOf(NumericEnum(name, n), [StringOf([])]); Valid(s, FillSchema(s, seed))
  {
    var entries := NumericEnum(name, n).entries;
    assert entries[1].key == name && entries[1].value.Number?;
    assert IsReverse(entries, 0);
    var s := UnionOf(NumericEnum(name, n), [StringOf([])]);
    var v := FillSchema(s, seed);
    assert Build(s.first, seed, 1) == Text(name);
    assert v == Text(name) && Valid(s.rest[0], v);
  }
}
