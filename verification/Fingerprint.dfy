/** The selection fingerprint: the bytes fed to the digest, and what equal digests tell. */
module Fingerprint {
  import opened Text
  import opened Bytes
  import opened Crypto
  import opened Model

  const WIDE := 8

  function ActionWord(a: Action): string {
    match a
    case ADD => "ADD"
    case UPDATE => "UPDATE"
    case DELETE => "DELETE"
  }

  function LifecycleWord(l: Lifecycle): string {
    match l
    case ACTIVE => "ACTIVE"
    case DELETED => "DELETED"
  }

  function VisibilityWord(v: Visibility): string {
    match v
    case Public => "public"
    case Restricted => "restricted"
  }

  function TypeWord(t: ValueType): string {
    match t
    case PlainString => "string"
    case Boolean => "boolean"
    case Integer => "integer"
    case Url => "url"
    case Multiline => "multiline"
  }

  function SourceWord(s: Option<Source>): string {
    match s
    case None => ""
    case Some(RequesterProvided) => "REQUESTER_PROVIDED"
    case Some(OperatorProvided) => "OPERATOR_PROVIDED"
  }

  /** `unwrap_or("")` */
  function Blank(s: Option<Name>): Name {
    match s case None => "" case Some(t) => t
  }

  /** `unwrap_or(-1)` */
  function MinusOne(n: Option<Count>): int {
    match n case None => -1 case Some(k) => k
  }

  function Ciphertext(item: Item): Stored {
    match item.proposed case None => [] case Some(s) => s.blob.ciphertext
  }

  function Nonce(item: Item): Stored {
    match item.proposed case None => [] case Some(s) => s.blob.nonce
  }

  function ItemDek(item: Item): int {
    match item.proposed case None => -1 case Some(s) => s.dek
  }

  function RequestBytes(r: Request): seq<byte> {
    Field(Utf8(r.id), WIDE) + SignedBytes(r.revision)
  }

  function ItemNames(item: Item): seq<seq<byte>> {
    [Utf8(item.request), Utf8(item.id), Utf8(ActionWord(item.action)), Utf8(item.key)]
  }

  function ItemTexts(item: Item): seq<seq<byte>> {
    [Utf8(Blank(item.variable)), Utf8(VisibilityWord(item.meta.visibility)), Utf8(TypeWord(item.meta.valueType)),
     Utf8(Blank(item.meta.description)), Utf8(Blank(item.meta.group)), Utf8(SourceWord(item.source)),
     Ciphertext(item), Nonce(item)]
  }

  function ItemBytes(item: Item): seq<byte> {
    Fields(ItemNames(item), WIDE)
    + (SignedBytes(item.revision) + (SignedBytes(MinusOne(item.base)) + (SignedBytes(ItemDek(item))
    + (Fields(ItemTexts(item), WIDE) + SignedBytes(item.meta.order)))))
  }

  function RowTexts(row: Variable): seq<seq<byte>> {
    [Utf8(row.id), Utf8(row.key), Utf8(LifecycleWord(row.lifecycle)), Utf8(VisibilityWord(row.meta.visibility)),
     Utf8(TypeWord(row.meta.valueType)), Utf8(Blank(row.meta.description)), Utf8(Blank(row.meta.group))]
  }

  function RowBytes(row: Variable): seq<byte> {
    Fields(RowTexts(row), WIDE) + (SignedBytes(row.meta.order) + SignedBytes(row.version))
  }

  function RequestsBytes(rs: seq<Request>): seq<byte> {
    if rs == [] then [] else RequestBytes(rs[0]) + RequestsBytes(rs[1..])
  }

  function ItemsBytes(items: seq<Item>): seq<byte> {
    if items == [] then [] else ItemBytes(items[0]) + ItemsBytes(items[1..])
  }

  function RowsBytes(rows: seq<Variable>): seq<byte> {
    if rows == [] then [] else RowBytes(rows[0]) + RowsBytes(rows[1..])
  }

  const LABEL := "configdeck-resulting-preview-v1"

  /** `selection_fingerprint`: no count of requests, items or rows is written. */
  function SelectionDigest(requests: seq<Request>, items: seq<Item>, rows: seq<Variable>): Digest {
    Utf8(LABEL) + (RequestsBytes(requests) + (ItemsBytes(items) + RowsBytes(rows)))
  }

  // ----- the running digest

  method FeedItem(digest: seq<byte>, item: Item) returns (digest': seq<byte>)
    ensures digest' == digest + ItemBytes(item)
  {
    hide Utf8, SignedBytes, Fields;
    var names := FeedFields([], ItemNames(item));
    var numbers := SignedBytes(item.revision) + (SignedBytes(MinusOne(item.base)) + SignedBytes(ItemDek(item)));
    var texts := FeedFields([], ItemTexts(item));
    digest' := digest + names + numbers + texts + SignedBytes(item.meta.order);
  }

  /** `digest_field` for each value of a list. */
  method FeedFields(digest: seq<byte>, values: seq<seq<byte>>) returns (digest': seq<byte>)
    ensures digest' == digest + Fields(values, WIDE)
  {
    hide Field;
    digest' := digest;
    var i := 0;
    ghost var rest := values;
    while i < |values|
      invariant 0 <= i <= |values| && rest == values[i..]
      invariant digest' + Fields(rest, WIDE) == digest + Fields(values, WIDE)
    {
      assert digest' + (Field(rest[0], WIDE) + Fields(rest[1..], WIDE)) ==
             digest' + Field(values[i], WIDE) + Fields(rest[1..], WIDE);
      digest' := digest' + Field(values[i], WIDE);
      i := i + 1;
      rest := rest[1..];
    }
    assert digest' + [] == digest';
  }

  method FeedRequests(digest: seq<byte>, requests: seq<Request>) returns (digest': seq<byte>)
    ensures digest' == digest + RequestsBytes(requests)
  {
    hide RequestBytes;
    digest' := digest;
    var i := 0;
    ghost var rest := requests;
    while i < |requests|
      invariant 0 <= i <= |requests| && rest == requests[i..]
      invariant digest' + RequestsBytes(rest) == digest + RequestsBytes(requests)
    {
      ghost var tail := RequestsBytes(rest[1..]);
      assert digest' + (RequestBytes(requests[i]) + tail) == (digest' + RequestBytes(requests[i])) + tail;
      digest' := digest' + RequestBytes(requests[i]);
      i := i + 1;
      rest := rest[1..];
    }
    assert digest' + [] == digest';
  }

  method FeedItems(digest: seq<byte>, items: seq<Item>) returns (digest': seq<byte>)
    ensures digest' == digest + ItemsBytes(items)
  {
    hide ItemBytes;
    digest' := digest;
    var i := 0;
    ghost var rest := items;
    while i < |items|
      invariant 0 <= i <= |items| && rest == items[i..]
      invariant digest' + ItemsBytes(rest) == digest + ItemsBytes(items)
    {
      ghost var tail := ItemsBytes(rest[1..]);
      assert digest' + (ItemBytes(items[i]) + tail) == (digest' + ItemBytes(items[i])) + tail;
      digest' := FeedItem(digest', items[i]);
      i := i + 1;
      rest := rest[1..];
    }
    assert digest' + [] == digest';
  }

  method FeedRow(digest: seq<byte>, row: Variable) returns (digest': seq<byte>)
    ensures digest' == digest + RowBytes(row)
  {
    hide RowTexts, SignedBytes, Fields;
    digest' := FeedFields(digest, RowTexts(row));
    digest' := digest' + SignedBytes(row.meta.order) + SignedBytes(row.version);
  }

  method FeedRows(digest: seq<byte>, rows: seq<Variable>) returns (digest': seq<byte>)
    ensures digest' == digest + RowsBytes(rows)
  {
    hide RowBytes;
    digest' := digest;
    var i := 0;
    ghost var rest := rows;
    while i < |rows|
      invariant 0 <= i <= |rows| && rest == rows[i..]
      invariant digest' + RowsBytes(rest) == digest + RowsBytes(rows)
    {
      ghost var tail := RowsBytes(rest[1..]);
      assert digest' + (RowBytes(rows[i]) + tail) == (digest' + RowBytes(rows[i])) + tail;
      digest' := FeedRow(digest', rows[i]);
      i := i + 1;
      rest := rest[1..];
    }
    assert digest' + [] == digest';
  }

  /** `selection_fingerprint`: the digest updated request by request, item by item, row by row. */
  method SelectionFingerprint(requests: seq<Request>, items: seq<Item>, rows: seq<Variable>) returns (digest: Digest)
    ensures digest == SelectionDigest(requests, items, rows)
  {
    hide Utf8, RequestsBytes, ItemsBytes, RowsBytes;
    digest := Utf8(LABEL);
    digest := FeedRequests(digest, requests);
    digest := FeedItems(digest, items);
    digest := FeedRows(digest, rows);
  }

  // ----- reading the bytes back

  /** Blank and absent optional text feed the same bytes. */
  function Unblank(s: Option<Name>): Option<Name> {
    if s == Some("") then None else s
  }

  function PlainMeta(m: Meta): Meta {
    m.(description := Unblank(m.description), group := Unblank(m.group))
  }

  /** What the digest says of an item: everything but the meaning of its ciphertext. */
  datatype ItemView = ItemView(
    id: Id, request: Id, variable: Option<Id>, action: Action, key: Name, base: Option<Count>,
    dek: int, ciphertext: seq<byte>, nonce: seq<byte>, meta: Meta, source: Option<Source>, revision: Count)

  function ViewItem(i: Item): ItemView {
    ItemView(i.id, i.request, Unblank(i.variable), i.action, i.key, i.base,
             ItemDek(i), Ciphertext(i), Nonce(i), PlainMeta(i.meta), i.source, i.revision)
  }

  datatype RowView = RowView(id: Id, key: Name, lifecycle: Lifecycle, meta: Meta, version: Count)

  function ViewRow(r: Variable): RowView {
    RowView(r.id, r.key, r.lifecycle, PlainMeta(r.meta), r.version)
  }

  function ViewItems(items: seq<Item>): (r: seq<ItemView>)
    ensures |r| == |items| && forall i :: 0 <= i < |r| ==> r[i] == ViewItem(items[i])
  {
    seq(|items|, i requires 0 <= i < |items| => ViewItem(items[i]))
  }

  function ViewRows(rows: seq<Variable>): (r: seq<RowView>)
    ensures |r| == |rows| && forall i :: 0 <= i < |r| ==> r[i] == ViewRow(rows[i])
  {
    seq(|rows|, i requires 0 <= i < |rows| => ViewRow(rows[i]))
  }

  lemma {:induction false} NameLen(s: string)
    ensures |Utf8(s)| <= 4 * |s|
  {
    if s != "" { NameLen(s[1..]); }
  }

  lemma NameFits(s: Name)
    ensures |Utf8(s)| < Pow256(WIDE)
  {
    hide Utf8;
    NameLen(s);
    Pow256Values();
  }

  lemma ItemFieldsFit(item: Item)
    ensures FieldsFit(ItemNames(item), WIDE) && FieldsFit(ItemTexts(item), WIDE)
  {
    hide Utf8, Pow256;
    Pow256Values();
    NameFits(item.request);
    NameFits(item.id);
    NameFits(ActionWord(item.action));
    NameFits(item.key);
    NameFits(Blank(item.variable));
    NameFits(VisibilityWord(item.meta.visibility));
    NameFits(TypeWord(item.meta.valueType));
    NameFits(Blank(item.meta.description));
    NameFits(Blank(item.meta.group));
    NameFits(SourceWord(item.source));
  }

  lemma RowFieldsFit(row: Variable)
    ensures FieldsFit(RowTexts(row), WIDE)
  {
    hide Utf8, Pow256;
    NameFits(row.id);
    NameFits(row.key);
    NameFits(LifecycleWord(row.lifecycle));
    NameFits(VisibilityWord(row.meta.visibility));
    NameFits(TypeWord(row.meta.valueType));
    NameFits(Blank(row.meta.description));
    NameFits(Blank(row.meta.group));
  }

  lemma SignedPrefixFree(m: int, n: int, x: seq<byte>, y: seq<byte>)
    requires IsI64(m) && IsI64(n) && SignedBytes(m) + x == SignedBytes(n) + y
    ensures m == n && x == y
  {
    hide SignedBytes;
    var l, r := SignedBytes(m) + x, SignedBytes(n) + y;
    assert l[..8] == SignedBytes(m) && r[..8] == SignedBytes(n);
    assert l[8..] == x && r[8..] == y;
    SignedInjective(m, n);
  }

  lemma WordsInjective(a: Item, b: Item)
    requires ItemNames(a) == ItemNames(b) && ItemTexts(a) == ItemTexts(b)
    ensures a.request == b.request && a.id == b.id && a.action == b.action && a.key == b.key
    ensures Unblank(a.variable) == Unblank(b.variable) && PlainMeta(a.meta).(order := 0) == PlainMeta(b.meta).(order := 0)
    ensures a.source == b.source && Ciphertext(a) == Ciphertext(b) && Nonce(a) == Nonce(b)
  {
    hide Utf8, Ciphertext, Nonce;
    var f, g := ItemNames(a), ItemNames(b);
    assert f[0] == g[0] && f[1] == g[1] && f[2] == g[2] && f[3] == g[3];
    Utf8Injective(a.request, b.request);
    Utf8Injective(a.id, b.id);
    Utf8Injective(ActionWord(a.action), ActionWord(b.action));
    Utf8Injective(a.key, b.key);
    var t, u := ItemTexts(a), ItemTexts(b);
    assert t[0] == u[0] && t[1] == u[1] && t[2] == u[2] && t[3] == u[3];
    assert t[4] == u[4] && t[5] == u[5] && t[6] == u[6] && t[7] == u[7];
    Utf8Injective(Blank(a.variable), Blank(b.variable));
    Utf8Injective(VisibilityWord(a.meta.visibility), VisibilityWord(b.meta.visibility));
    Utf8Injective(TypeWord(a.meta.valueType), TypeWord(b.meta.valueType));
    Utf8Injective(Blank(a.meta.description), Blank(b.meta.description));
    Utf8Injective(Blank(a.meta.group), Blank(b.meta.group));
    Utf8Injective(SourceWord(a.source), SourceWord(b.source));
    ActionWords(a.action, b.action);
    VisibilityWords(a.meta.visibility, b.meta.visibility);
    TypeWords(a.meta.valueType, b.meta.valueType);
    SourceWords(a.source, b.source);
  }

  lemma ActionWords(a: Action, b: Action)
    requires ActionWord(a) == ActionWord(b)
    ensures a == b
  {
    assert |"ADD"| == 3 && "UPDATE"[0] == 'U' && "DELETE"[0] == 'D' && |"DELETE"| == 6;
  }

  lemma LifecycleWords(a: Lifecycle, b: Lifecycle)
    requires LifecycleWord(a) == LifecycleWord(b)
    ensures a == b
  {
    assert |"ACTIVE"| == 6 && |"DELETED"| == 7;
  }

  lemma VisibilityWords(a: Visibility, b: Visibility)
    requires VisibilityWord(a) == VisibilityWord(b)
    ensures a == b
  {
    assert |"public"| == 6 && |"restricted"| == 10;
  }

  lemma TypeWords(a: ValueType, b: ValueType)
    requires TypeWord(a) == TypeWord(b)
    ensures a == b
  {
    assert |"string"| == 6 && |"boolean"| == 7 && |"integer"| == 7 && |"url"| == 3 && |"multiline"| == 9;
    assert "boolean"[0] == 'b' && "integer"[0] == 'i';
  }

  lemma SourceWords(a: Option<Source>, b: Option<Source>)
    requires SourceWord(a) == SourceWord(b)
    ensures a == b
  {
    assert |"REQUESTER_PROVIDED"| == 18 && |"OPERATOR_PROVIDED"| == 17;
  }

  /** The words for actions and for lifecycles are disjoint. */
  lemma WordsDisjoint(a: Action, l: Lifecycle)
    ensures ActionWord(a) != LifecycleWord(l)
  {
    assert |"ADD"| == 3 && |"UPDATE"| == 6 && |"DELETE"| == 6 && |"ACTIVE"| == 6 && |"DELETED"| == 7;
    assert "UPDATE"[0] == 'U' && "DELETE"[0] == 'D' && "ACTIVE"[0] == 'A';
  }

  /** The front of the bytes tells the first item. */
  lemma ItemPrefixFree(a: Item, b: Item, x: seq<byte>, y: seq<byte>)
    requires ItemBytes(a) + x == ItemBytes(b) + y
    ensures ViewItem(a) == ViewItem(b) && x == y
  {
    hide Fields, SignedBytes, ItemNames, ItemTexts, FieldsFit, Ciphertext, Nonce;
    ItemFieldsFit(a);
    ItemFieldsFit(b);
    var a5, b5 := SignedBytes(a.meta.order) + x, SignedBytes(b.meta.order) + y;
    var a4, b4 := Fields(ItemTexts(a), WIDE) + a5, Fields(ItemTexts(b), WIDE) + b5;
    var a3, b3 := SignedBytes(ItemDek(a)) + a4, SignedBytes(ItemDek(b)) + b4;
    var a2, b2 := SignedBytes(MinusOne(a.base)) + a3, SignedBytes(MinusOne(b.base)) + b3;
    var a1, b1 := SignedBytes(a.revision) + a2, SignedBytes(b.revision) + b2;
    ItemParts(a, x);
    ItemParts(b, y);
    NamesSizes(a, b);
    FieldsPrefixFree(ItemNames(a), ItemNames(b), WIDE, a1, b1);
    SignedPrefixFree(a.revision, b.revision, a2, b2);
    SignedPrefixFree(MinusOne(a.base), MinusOne(b.base), a3, b3);
    SignedPrefixFree(ItemDek(a), ItemDek(b), a4, b4);
    FieldsPrefixFree(ItemTexts(a), ItemTexts(b), WIDE, a5, b5);
    SignedPrefixFree(a.meta.order, b.meta.order, x, y);
    WordsInjective(a, b);
  }

  lemma NamesSizes(a: Item, b: Item)
    ensures |ItemNames(a)| == |ItemNames(b)| && |ItemTexts(a)| == |ItemTexts(b)|
  {
  }

  lemma ItemParts(a: Item, x: seq<byte>)
    ensures ItemBytes(a) + x == Fields(ItemNames(a), WIDE) + (SignedBytes(a.revision)
      + (SignedBytes(MinusOne(a.base)) + (SignedBytes(ItemDek(a))
      + (Fields(ItemTexts(a), WIDE) + (SignedBytes(a.meta.order) + x)))))
  {
    hide Fields, SignedBytes, ItemNames, ItemTexts;
    var e := SignedBytes(a.meta.order);
    var d := Fields(ItemTexts(a), WIDE);
    assert (d + e) + x == d + (e + x);
    var c := SignedBytes(ItemDek(a));
    assert (c + (d + e)) + x == c + ((d + e) + x);
    var b := SignedBytes(MinusOne(a.base));
    assert (b + (c + (d + e))) + x == b + ((c + (d + e)) + x);
    var r := SignedBytes(a.revision);
    assert (r + (b + (c + (d + e)))) + x == r + ((b + (c + (d + e))) + x);
    var n := Fields(ItemNames(a), WIDE);
    assert (n + (r + (b + (c + (d + e))))) + x == n + ((r + (b + (c + (d + e)))) + x);
  }

  lemma RowPrefixFree(a: Variable, b: Variable, x: seq<byte>, y: seq<byte>)
    requires RowBytes(a) + x == RowBytes(b) + y
    ensures ViewRow(a) == ViewRow(b) && x == y
  {
    hide Fields, SignedBytes, FieldsFit, Utf8;
    RowFieldsFit(a);
    RowFieldsFit(b);
    RowParts(a, x);
    RowParts(b, y);
    var a2, b2 := SignedBytes(a.version) + x, SignedBytes(b.version) + y;
    var a1, b1 := SignedBytes(a.meta.order) + a2, SignedBytes(b.meta.order) + b2;
    FieldsPrefixFree(RowTexts(a), RowTexts(b), WIDE, a1, b1);
    SignedPrefixFree(a.meta.order, b.meta.order, a2, b2);
    SignedPrefixFree(a.version, b.version, x, y);
    RowWords(a, b);
  }

  lemma RowParts(a: Variable, x: seq<byte>)
    ensures RowBytes(a) + x == Fields(RowTexts(a), WIDE) + (SignedBytes(a.meta.order) + (SignedBytes(a.version) + x))
  {
    hide Fields, SignedBytes, RowTexts;
    var t, o, v := Fields(RowTexts(a), WIDE), SignedBytes(a.meta.order), SignedBytes(a.version);
    assert (o + v) + x == o + (v + x);
    assert (t + (o + v)) + x == t + ((o + v) + x);
  }

  lemma RowWords(a: Variable, b: Variable)
    requires RowTexts(a) == RowTexts(b)
    ensures a.id == b.id && a.key == b.key && a.lifecycle == b.lifecycle
    ensures PlainMeta(a.meta).(order := 0) == PlainMeta(b.meta).(order := 0)
  {
    hide Utf8;
    var t, u := RowTexts(a), RowTexts(b);
    assert t[0] == u[0] && t[1] == u[1] && t[2] == u[2] && t[3] == u[3] && t[4] == u[4] && t[5] == u[5] && t[6] == u[6];
    Utf8Injective(a.id, b.id);
    Utf8Injective(a.key, b.key);
    Utf8Injective(LifecycleWord(a.lifecycle), LifecycleWord(b.lifecycle));
    Utf8Injective(VisibilityWord(a.meta.visibility), VisibilityWord(b.meta.visibility));
    Utf8Injective(TypeWord(a.meta.valueType), TypeWord(b.meta.valueType));
    Utf8Injective(Blank(a.meta.description), Blank(b.meta.description));
    Utf8Injective(Blank(a.meta.group), Blank(b.meta.group));
    LifecycleWords(a.lifecycle, b.lifecycle);
    VisibilityWords(a.meta.visibility, b.meta.visibility);
    TypeWords(a.meta.valueType, b.meta.valueType);
  }

  /** The first three of a list of fields. */
  lemma ThreeFields(fs: seq<seq<byte>>, x: seq<byte>)
    requires |fs| >= 3 && FieldsFit(fs, WIDE)
    ensures FieldsFit(fs[..3], WIDE)
    ensures Fields(fs, WIDE) + x == Fields(fs[..3], WIDE) + (Fields(fs[3..], WIDE) + x)
  {
    hide Fields;
    FitPrefix(fs, 3);
    assert fs[..3] + fs[3..] == fs;
    FieldsConcat(fs[..3], fs[3..], WIDE);
    var a, b := Fields(fs[..3], WIDE), Fields(fs[3..], WIDE);
    assert (a + b) + x == a + (b + x);
  }

  /** The third field tells an item from a row. */
  lemma ItemIsNotRow(a: Item, b: Variable, x: seq<byte>, y: seq<byte>)
    ensures ItemBytes(a) + x != RowBytes(b) + y
  {
    hide Fields, SignedBytes, Utf8, FieldsFit, ItemTexts, ItemBytes, RowBytes;
    if ItemBytes(a) + x == RowBytes(b) + y {
      ItemFieldsFit(a);
      RowFieldsFit(b);
      ItemParts(a, x);
      RowParts(b, y);
      var f, g := ItemNames(a), RowTexts(b);
      var more := SignedBytes(a.revision) + (SignedBytes(MinusOne(a.base)) + (SignedBytes(ItemDek(a))
        + (Fields(ItemTexts(a), WIDE) + (SignedBytes(a.meta.order) + x))));
      var rest := SignedBytes(b.meta.order) + (SignedBytes(b.version) + y);
      ThreeFields(f, more);
      ThreeFields(g, rest);
      FieldsPrefixFree(f[..3], g[..3], WIDE, Fields(f[3..], WIDE) + more, Fields(g[3..], WIDE) + rest);
      assert f[..3][2] == Utf8(ActionWord(a.action)) && g[..3][2] == Utf8(LifecycleWord(b.lifecycle));
      Utf8Injective(ActionWord(a.action), LifecycleWord(b.lifecycle));
      WordsDisjoint(a.action, b.lifecycle);
    }
  }

  lemma FitPrefix(fs: seq<seq<byte>>, n: nat)
    requires n <= |fs| && FieldsFit(fs, WIDE)
    ensures FieldsFit(fs[..n], WIDE)
  {
    hide Pow256;
  }

  lemma RowBytesNotEmpty(row: Variable)
    ensures RowBytes(row) != []
  {
    hide Fields;
  }

  lemma ItemBytesNotEmpty(item: Item)
    ensures ItemBytes(item) != []
  {
    hide Fields;
    assert |SignedBytes(item.revision)| == 8;
  }

  lemma {:induction false} RowsDecodable(a: seq<Variable>, b: seq<Variable>)
    requires RowsBytes(a) == RowsBytes(b)
    ensures ViewRows(a) == ViewRows(b)
  {
    hide RowBytes, ViewRow;
    if a == [] || b == [] {
      if a != [] { RowBytesNotEmpty(a[0]); }
      if b != [] { RowBytesNotEmpty(b[0]); }
    } else {
      RowPrefixFree(a[0], b[0], RowsBytes(a[1..]), RowsBytes(b[1..]));
      RowsDecodable(a[1..], b[1..]);
      assert ViewRows(a) == [ViewRow(a[0])] + ViewRows(a[1..]);
      assert ViewRows(b) == [ViewRow(b[0])] + ViewRows(b[1..]);
    }
  }

  lemma {:induction false} ItemsDecodable(a: seq<Item>, rowsA: seq<Variable>, b: seq<Item>, rowsB: seq<Variable>)
    requires ItemsBytes(a) + RowsBytes(rowsA) == ItemsBytes(b) + RowsBytes(rowsB)
    ensures ViewItems(a) == ViewItems(b) && ViewRows(rowsA) == ViewRows(rowsB)
  {
    hide ItemBytes, RowBytes, ViewItem, ViewRow;
    var x, y := ItemsBytes(a) + RowsBytes(rowsA), ItemsBytes(b) + RowsBytes(rowsB);
    if a == [] && b == [] {
      assert x == RowsBytes(rowsA) && y == RowsBytes(rowsB);
      RowsDecodable(rowsA, rowsB);
    } else if a == [] {
      assert x == RowsBytes(rowsA);
      ItemAgainstRows(b, rowsB, rowsA);
    } else if b == [] {
      assert y == RowsBytes(rowsB);
      ItemAgainstRows(a, rowsA, rowsB);
    } else {
      var l, r := ItemsBytes(a[1..]) + RowsBytes(rowsA), ItemsBytes(b[1..]) + RowsBytes(rowsB);
      assert x == ItemBytes(a[0]) + l && y == ItemBytes(b[0]) + r;
      ItemPrefixFree(a[0], b[0], l, r);
      ItemsDecodable(a[1..], rowsA, b[1..], rowsB);
      assert ViewItems(a) == [ViewItem(a[0])] + ViewItems(a[1..]);
      assert ViewItems(b) == [ViewItem(b[0])] + ViewItems(b[1..]);
    }
  }

  lemma ItemAgainstRows(items: seq<Item>, more: seq<Variable>, rows: seq<Variable>)
    requires items != []
    ensures ItemsBytes(items) + RowsBytes(more) != RowsBytes(rows)
  {
    hide ItemBytes, RowBytes;
    var rest := ItemsBytes(items[1..]) + RowsBytes(more);
    assert ItemsBytes(items) + RowsBytes(more) == ItemBytes(items[0]) + rest;
    if rows == [] {
      ItemBytesNotEmpty(items[0]);
    } else {
      ItemIsNotRow(items[0], rows[0], rest, RowsBytes(rows[1..]));
    }
  }

  predicate SameIds(a: seq<Request>, b: seq<Request>) {
    |a| == |b| && forall i :: 0 <= i < |a| ==> a[i].id == b[i].id
  }

  predicate SameRevisions(a: seq<Request>, b: seq<Request>) {
    |a| == |b| && forall i :: 0 <= i < |a| ==> a[i].revision == b[i].revision
  }

  lemma {:induction false} RequestsDecodable(a: seq<Request>, b: seq<Request>, x: seq<byte>, y: seq<byte>)
    requires SameIds(a, b)
    requires RequestsBytes(a) + x == RequestsBytes(b) + y
    ensures SameRevisions(a, b) && x == y
  {
    hide SignedBytes, Field, Utf8;
    if a == [] {
      assert RequestsBytes(a) + x == x && RequestsBytes(b) + y == y;
    } else {
      var l, r := RequestsBytes(a[1..]) + x, RequestsBytes(b[1..]) + y;
      assert RequestsBytes(a) + x == Field(Utf8(a[0].id), WIDE) + (SignedBytes(a[0].revision) + l);
      assert RequestsBytes(b) + y == Field(Utf8(b[0].id), WIDE) + (SignedBytes(b[0].revision) + r);
      NameFits(a[0].id);
      FieldPrefixFree(Utf8(a[0].id), Utf8(b[0].id), WIDE, SignedBytes(a[0].revision) + l, SignedBytes(b[0].revision) + r);
      SignedPrefixFree(a[0].revision, b[0].revision, l, r);
      RequestsDecodable(a[1..], b[1..], x, y);
      forall i | 0 <= i < |a| ensures a[i].revision == b[i].revision {
        if i > 0 { assert a[i] == a[1..][i - 1] && b[i] == b[1..][i - 1]; }
      }
    }
  }

  /**
   * The preimage is uniquely decodable: for the same request ids, equal digests mean equal request
   * revisions, equal items and equal rows, although no list length is written.
   */
  lemma DigestTellsSelection(
    ra: seq<Request>, ia: seq<Item>, ca: seq<Variable>, rb: seq<Request>, ib: seq<Item>, cb: seq<Variable>)
    requires SameIds(ra, rb)
    requires SelectionDigest(ra, ia, ca) == SelectionDigest(rb, ib, cb)
    ensures SameRevisions(ra, rb)
    ensures ViewItems(ia) == ViewItems(ib) && ViewRows(ca) == ViewRows(cb)
  {
    hide Utf8, RequestsBytes, ItemsBytes, RowsBytes, ViewItems, ViewRows;
    var n := |Utf8(LABEL)|;
    var x, y := ItemsBytes(ia) + RowsBytes(ca), ItemsBytes(ib) + RowsBytes(cb);
    assert SelectionDigest(ra, ia, ca)[n..] == RequestsBytes(ra) + x;
    assert SelectionDigest(rb, ib, cb)[n..] == RequestsBytes(rb) + y;
    RequestsDecodable(ra, rb, x, y);
    ItemsDecodable(ia, ca, ib, cb);
  }
}
