/** Authenticated data, and authenticated encryption as an ideal interface. */
module Crypto {
  import opened Text
  import opened Bytes

  const FORMAT_VERSION: byte := 1
  const WIDTH := 4

  /** What a ciphertext is bound to, one constructor for each purpose. */
  datatype Context =
    | WrappedDek(environment: string, dekVersion: nat, kekVersion: nat)
    | CurrentValue(service: string, environment: string, variable: string, version: nat, dekVersion: nat)
    | ProposedValue(service: string, environment: string, request: string, item: string, revision: nat, dekVersion: nat)
    | TotpSeed(user: string, cryptoVersion: nat)
    | ImportPreview(user: string, session: string, environment: string)

  function Purpose(c: Context): string {
    match c
    case WrappedDek(_, _, _) => "environment-dek"
    case CurrentValue(_, _, _, _, _) => "variable-current"
    case ProposedValue(_, _, _, _, _, _) => "change-request-proposed-value"
    case TotpSeed(_, _) => "totp-seed"
    case ImportPreview(_, _, _) => "import-preview"
  }

  function Number(n: nat): seq<byte> { BigEndian(n, 8) }

  /** The fields after the purpose. */
  function ContextFields(c: Context): seq<seq<byte>> {
    match c
    case WrappedDek(e, d, k) => [Utf8(e), Number(d), Number(k)]
    case CurrentValue(s, e, v, n, d) => [Utf8(s), Utf8(e), Utf8(v), Number(n), Number(d)]
    case ProposedValue(s, e, r, i, n, d) => [Utf8(s), Utf8(e), Utf8(r), Utf8(i), Number(n), Number(d)]
    case TotpSeed(u, n) => [Utf8(u), Number(n)]
    case ImportPreview(u, s, e) => [Utf8(u), Utf8(s), Utf8(e)]
  }

  function AllFields(c: Context): seq<seq<byte>> {
    [Utf8("configdeck"), Utf8(Purpose(c))] + ContextFields(c)
  }

  /** The five builders of authenticated data. */
  function Aad(c: Context): seq<byte> {
    [FORMAT_VERSION] + Fields(AllFields(c), WIDTH)
  }

  /** Identifiers shorter than 2^32 bytes, and numbers of 64 bits. */
  predicate Encodable(c: Context) {
    && FieldsFit(ContextFields(c), WIDTH)
    && match c
       case WrappedDek(_, d, k) => d < TWO_64 && k < TWO_64
       case CurrentValue(_, _, _, n, d) => n < TWO_64 && d < TWO_64
       case ProposedValue(_, _, _, _, n, d) => n < TWO_64 && d < TWO_64
       case TotpSeed(_, n) => n < TWO_64
       case ImportPreview(_, _, _) => true
  }

  lemma PurposesDiffer(a: Context, b: Context)
    requires Purpose(a) == Purpose(b)
    ensures a.WrappedDek? <==> b.WrappedDek?
    ensures a.CurrentValue? <==> b.CurrentValue?
    ensures a.ProposedValue? <==> b.ProposedValue?
    ensures a.TotpSeed? <==> b.TotpSeed?
    ensures a.ImportPreview? <==> b.ImportPreview?
  {
    assert |"environment-dek"| == 15 && |"variable-current"| == 16 && |"change-request-proposed-value"| == 29;
    assert |"totp-seed"| == 9 && |"import-preview"| == 14;
  }

  lemma NumberInjective(m: nat, n: nat)
    requires m < TWO_64 && n < TWO_64 && Number(m) == Number(n)
    ensures m == n
  {
    Pow256Values();
    BigEndianInjective(m, n, 8);
  }

  lemma FixedFieldsFit(c: Context)
    requires FieldsFit(ContextFields(c), WIDTH)
    ensures FieldsFit(AllFields(c), WIDTH)
  {
    hide Utf8, Utf8Len, ContextFields, Purpose, Pow256, BigEndian;
    Utf8LenIsLength("configdeck");
    Utf8LenIsLength(Purpose(c));
    Pow256Values();
    ShortWords(c);
    var fs := AllFields(c);
    forall i | 0 <= i < |fs| ensures |fs[i]| < Pow256(WIDTH) {
      if i >= 2 { assert fs[i] == ContextFields(c)[i - 2]; }
    }
  }

  lemma {:induction false} ShortLen(s: string)
    ensures Utf8Len(s) <= 4 * |s|
  {
    if s != "" { ShortLen(s[1..]); }
  }

  lemma ShortWords(c: Context)
    ensures Utf8Len("configdeck") <= 40 && Utf8Len(Purpose(c)) <= 120
  {
    hide Utf8Len;
    ShortLen("configdeck");
    ShortLen(Purpose(c));
  }

  /** The builders are jointly injective: equal bytes mean the same purpose and the same fields. */
  lemma AadInjective(a: Context, b: Context)
    requires Encodable(a) && Encodable(b) && Aad(a) == Aad(b)
    ensures a == b
  {
    hide Utf8, Number, Fields, BigEndian, Pow256;
    FixedFieldsFit(a);
    FixedFieldsFit(b);
    assert Aad(a)[1..] == Fields(AllFields(a), WIDTH) && Aad(b)[1..] == Fields(AllFields(b), WIDTH);
    FieldsInjective(AllFields(a), AllFields(b), WIDTH);
    var fs, gs := AllFields(a), AllFields(b);
    assert fs[1] == Utf8(Purpose(a)) && gs[1] == Utf8(Purpose(b));
    Utf8Injective(Purpose(a), Purpose(b));
    PurposesDiffer(a, b);
    assert ContextFields(a) == fs[2..] && ContextFields(b) == gs[2..];
    FieldsTell(a, b);
  }

  lemma FieldsTell(a: Context, b: Context)
    requires Encodable(a) && Encodable(b) && Purpose(a) == Purpose(b) && ContextFields(a) == ContextFields(b)
    ensures a == b
  {
    hide Utf8, Number, FieldsFit;
    PurposesDiffer(a, b);
    var fs, gs := ContextFields(a), ContextFields(b);
    match a {
      case WrappedDek(e, d, k) =>
        Utf8Injective(e, b.environment);
        NumberInjective(d, b.dekVersion);
        NumberInjective(k, b.kekVersion);
      case CurrentValue(s, e, v, n, d) =>
        assert fs[2] == gs[2] && fs[3] == gs[3];
        Utf8Injective(s, b.service);
        Utf8Injective(e, b.environment);
        Utf8Injective(v, b.variable);
        NumberInjective(n, b.version);
        NumberInjective(d, b.dekVersion);
      case ProposedValue(s, e, r, i, n, d) =>
        assert fs[2] == gs[2] && fs[3] == gs[3] && fs[4] == gs[4];
        Utf8Injective(s, b.service);
        Utf8Injective(e, b.environment);
        Utf8Injective(r, b.request);
        Utf8Injective(i, b.item);
        NumberInjective(n, b.revision);
        NumberInjective(d, b.dekVersion);
      case TotpSeed(u, n) =>
        Utf8Injective(u, b.user);
        NumberInjective(n, b.cryptoVersion);
      case ImportPreview(u, s, e) =>
        Utf8Injective(u, b.user);
        Utf8Injective(s, b.session);
        Utf8Injective(e, b.environment);
    }
  }

  /** The byte buffer that the builders extend, and the list of fields it stands for. */
  class AadBuilder {
    var buffer: seq<byte>
    ghost var fields: seq<seq<byte>>

    ghost predicate Valid()
      reads this
    {
      buffer == [FORMAT_VERSION] + Fields(fields, WIDTH)
    }

    constructor (purpose: string)
      ensures Valid() && fields == [Utf8("configdeck"), Utf8(purpose)]
    {
      buffer := [FORMAT_VERSION];
      fields := [];
      new;
      hide Utf8, BigEndian, Field;
      assert Fields([], WIDTH) == [];
      PushField(Utf8("configdeck"));
      PushField(Utf8(purpose));
    }

    method PushField(field: seq<byte>)
      requires Valid()
      modifies this
      ensures Valid() && fields == old(fields) + [field]
      ensures buffer == old(buffer) + Field(field, WIDTH)
    {
      hide Fields;
      FieldsAppend(fields, field, WIDTH);
      buffer := buffer + BigEndian(|field|, WIDTH);
      buffer := buffer + field;
      fields := fields + [field];
    }

    method PushNumber(value: nat)
      requires Valid()
      modifies this
      ensures Valid() && fields == old(fields) + [Number(value)]
      ensures buffer == old(buffer) + Field(Number(value), WIDTH)
    {
      PushField(BigEndian(value, 8));
    }
  }

  /** The five `*_aad` functions: a builder for the purpose, then the fields of the context in order. */
  method BuildAad(context: Context) returns (aad: seq<byte>)
    ensures aad == Aad(context)
  {
    hide Fields, Utf8, Number, Field, BigEndian, Purpose;
    var builder := new AadBuilder(Purpose(context));
    match context {
      case WrappedDek(environment, dekVersion, kekVersion) =>
        builder.PushField(Utf8(environment));
        builder.PushNumber(dekVersion);
        builder.PushNumber(kekVersion);
      case CurrentValue(service, environment, variable, version, dekVersion) =>
        builder.PushField(Utf8(service));
        builder.PushField(Utf8(environment));
        builder.PushField(Utf8(variable));
        builder.PushNumber(version);
        builder.PushNumber(dekVersion);
      case ProposedValue(service, environment, request, item, revision, dekVersion) =>
        builder.PushField(Utf8(service));
        builder.PushField(Utf8(environment));
        builder.PushField(Utf8(request));
        builder.PushField(Utf8(item));
        builder.PushNumber(revision);
        builder.PushNumber(dekVersion);
      case TotpSeed(user, cryptoVersion) =>
        builder.PushField(Utf8(user));
        builder.PushNumber(cryptoVersion);
      case ImportPreview(user, session, environment) =>
        builder.PushField(Utf8(user));
        builder.PushField(Utf8(session));
        builder.PushField(Utf8(environment));
    }
    assert builder.fields == AllFields(context);
    aad := builder.buffer;
  }

  // ----- ideal encryption

  type Key = nat

  /** A byte string in memory: its length fits in 64 bits. */
  type Stored = b: seq<byte> | |b| < TWO_64

  /** A stored ciphertext with its nonce, what it was sealed with, and what only the holder of the key learns from it. */
  datatype Blob = Blob(ciphertext: Stored, nonce: Stored, key: Key, context: Context, plain: string)

  /** The bytes that one encryption produces. */
  datatype Random = Random(ciphertext: Stored, nonce: Stored)

  function Seal(key: Key, context: Context, plain: string, random: Random): Blob {
    Blob(random.ciphertext, random.nonce, key, context, plain)
  }

  /** The cipher compares bytes: a blob opens only under the key and the authenticated data that it was sealed with. */
  function OpenBytes(key: Key, aad: seq<byte>, blob: Blob): Option<string> {
    if blob.key == key && Aad(blob.context) == aad then Some(blob.plain) else None
  }

  /** The same on contexts, which their bytes tell apart. */
  function Open(key: Key, context: Context, blob: Blob): Option<string> {
    if blob.key == key && blob.context == context then Some(blob.plain) else None
  }

  /** Opening by bytes is opening by context: a ciphertext moved to another row, version or purpose does not open. */
  lemma OpensOnlyInItsContext(key: Key, context: Context, blob: Blob)
    requires Encodable(context) && Encodable(blob.context)
    ensures OpenBytes(key, Aad(context), blob) == Open(key, context, blob)
  {
    hide Aad;
    if Aad(blob.context) == Aad(context) { AadInjective(blob.context, context); }
  }
}
