/** Pending Stream records: the factories that fix which mutations exist, the field list a
    mutation is stored as, and the strict parser that reads it back. */
module StreamCodec {
  import opened Wrappers
  import opened Blacklist

  const MAX_ENTITY_ID_BYTES: nat := 128
  const MAX_REASON_BYTES: nat := 256
  const MAX_EXPIRE_AT_MS: nat := 253_402_300_799_999

  datatype RedisValue =
    | Nil
    | StatusReply(text: string)
    | Text(text: string)
    | Integer(value: int)
    | ErrorReply(text: string)
    | Array(elements: seq<RedisValue>)

  /* Decimal numbers without leading zeros. */

  function Digit(d: nat): char
    requires d < 10
  {
    "0123456789"[d]
  }

  predicate IsDigit(c: char) {
    '0' <= c <= '9'
  }

  function DigitValue(c: char): (d: nat)
    requires IsDigit(c)
    ensures d < 10
  {
    (c as int) - ('0' as int)
  }

  function Decimal(n: nat): string {
    if n < 10 then [Digit(n)] else Decimal(n / 10) + [Digit(n % 10)]
  }

  predicate AllDigits(s: string) {
    forall i :: 0 <= i < |s| ==> IsDigit(s[i])
  }

  function Value(s: string): nat
    requires AllDigits(s)
  {
    if s == "" then 0 else Value(s[..|s| - 1]) * 10 + DigitValue(s[|s| - 1])
  }

  function ParseUnsigned(s: string, maximum: nat): Option<nat> {
    if s == "" || (|s| > 1 && s[0] == '0') then None
    else if !AllDigits(s) then None
    else if Value(s) > maximum then None
    else Some(Value(s))
  }

  lemma DigitRoundTrip(d: nat, c: char)
    requires d < 10 && IsDigit(c)
    ensures IsDigit(Digit(d)) && DigitValue(Digit(d)) == d
    ensures Digit(DigitValue(c)) == c
  {
    assert d in {0, 1, 2, 3, 4, 5, 6, 7, 8, 9};
    assert c in {'0', '1', '2', '3', '4', '5', '6', '7', '8', '9'} by {
      var v := c as int;
      assert v == 48 || v == 49 || v == 50 || v == 51 || v == 52 || v == 53 || v == 54 || v == 55 || v == 56 || v == 57;
    }
  }

  lemma {:induction false} DecimalIsPlain(n: nat)
    ensures Decimal(n) != "" && AllDigits(Decimal(n)) && Value(Decimal(n)) == n
    ensures |Decimal(n)| > 1 ==> Decimal(n)[0] != '0'
    ensures n > 0 ==> Decimal(n)[0] != '0'
    decreases n
  {
    DigitRoundTrip(n % 10, '0');
    if n < 10 {
      assert Decimal(n)[..0] == "";
    } else {
      DecimalIsPlain(n / 10);
      assert Decimal(n)[..|Decimal(n)| - 1] == Decimal(n / 10);
    }
  }

  lemma {:induction false} PlainIsDecimal(s: string)
    requires s != "" && AllDigits(s) && (|s| > 1 ==> s[0] != '0')
    ensures s == Decimal(Value(s))
    ensures s[0] != '0' ==> Value(s) > 0
    decreases |s|
  {
    var rest, last := s[..|s| - 1], s[|s| - 1];
    DigitRoundTrip(0, last);
    if rest == "" {
      assert Value(rest) == 0 && s == [last];
    } else {
      PlainIsDecimal(rest);
      assert Value(s) / 10 == Value(rest) && Value(s) % 10 == DigitValue(last);
      assert s == rest + [last];
    }
  }

  /** Printing and parsing undo each other, and no second text reads as the same number. */
  lemma UnsignedRoundTrip(s: string, n: nat, maximum: nat)
    ensures ParseUnsigned(s, maximum) == Some(n) <==> s == Decimal(n) && n <= maximum
  {
    DecimalIsPlain(n);
    if s != "" && AllDigits(s) && !(|s| > 1 && s[0] == '0') { PlainIsDecimal(s); }
  }

  /* Factories. canon is the canonical text of an address, if it is one. */

  type Canon = string -> Option<string>

  ghost predicate Idempotent(canon: Canon) {
    forall s :: canon(s).Some? ==> canon(canon(s).value) == canon(s)
  }

  predicate ValidText(s: string, max: nat) {
    s != "" && |s| <= max && '\0' !in s
  }

  function NormalizeId(canon: Canon, kind: EntityType, id: string): Option<string> {
    if kind.Ip? then canon(id) else if ValidText(id, MAX_ENTITY_ID_BYTES) then Some(id) else None
  }

  function MakeUpsert(canon: Canon, kind: EntityType, id: string, reason: string, expireAt: nat): Option<Mutation> {
    var normal := NormalizeId(canon, kind, id);
    if normal.None? || !ValidText(reason, MAX_REASON_BYTES) || expireAt > MAX_EXPIRE_AT_MS then None
    else Some(Upsert(Key(kind, normal.value), reason, expireAt))
  }

  function MakeDisable(canon: Canon, kind: EntityType, id: string): Option<Mutation> {
    var normal := NormalizeId(canon, kind, id);
    if normal.None? then None else Some(Disable(Key(kind, normal.value)))
  }

  // Some factory call returns m.
  ghost predicate Built(canon: Canon, m: Mutation) {
    match m
    case Upsert(key, reason, expireAt) => exists id :: MakeUpsert(canon, key.kind, id, reason, expireAt) == Some(m)
    case Disable(key) => exists id :: MakeDisable(canon, key.kind, id) == Some(m)
    case ClearAll => true
  }

  /* The record. */

  function KindText(kind: EntityType): string {
    match kind
    case User => "USER"
    case Ip => "IP"
    case Device => "DEVICE"
  }

  function ParseKind(s: string): Option<EntityType> {
    if s == "USER" then Some(User) else if s == "IP" then Some(Ip) else if s == "DEVICE" then Some(Device) else None
  }

  function StreamFields(m: Mutation): seq<string> {
    match m
    case Upsert(key, reason, expireAt) =>
      ["operation", "UPSERT", "type", KindText(key.kind), "id", key.id, "reason", reason, "expire_at_ms",
        Decimal(expireAt)]
    case Disable(key) => ["operation", "DISABLE", "type", KindText(key.kind), "id", key.id]
    case ClearAll => ["operation", "CLEAR_ALL"]
  }

  function Texts(fields: seq<string>): seq<RedisValue> {
    seq(|fields|, i requires 0 <= i < |fields| => Text(fields[i]))
  }

  // The pairs as a map, or None when one is not text or a name comes twice.
  function Pairs(fields: seq<RedisValue>): Option<map<string, string>>
    requires |fields| % 2 == 0
    decreases |fields|
  {
    if fields == [] then Some(map[])
    else
      var before := Pairs(fields[..|fields| - 2]);
      var (k, v) := (fields[|fields| - 2], fields[|fields| - 1]);
      if before.None? || !k.Text? || !v.Text? || k.text in before.value then None
      else Some(before.value[k.text := v.text])
  }

  method CollectPairs(fields: seq<RedisValue>) returns (values: Option<map<string, string>>)
    requires |fields| % 2 == 0
    ensures values == Pairs(fields)
  {
    var collected: map<string, string> := map[];
    var index := 0;
    while index < |fields|
      invariant index <= |fields| && index % 2 == 0 && Pairs(fields[..index]) == Some(collected)
    {
      var key, value := fields[index], fields[index + 1];
      assert fields[..index + 2][..index] == fields[..index];
      if !key.Text? || !value.Text? || key.text in collected {
        PairsFail(fields, index + 2);
        return None;
      }
      collected := collected[key.text := value.text];
      index := index + 2;
    }
    assert fields[..index] == fields;
    return Some(collected);
  }

  lemma {:induction false} PairsFail(fields: seq<RedisValue>, n: nat)
    requires n <= |fields| && n % 2 == 0 && |fields| % 2 == 0 && Pairs(fields[..n]).None?
    ensures Pairs(fields).None?
    decreases |fields|
  {
    if n == |fields| {
      assert fields[..n] == fields;
    } else {
      assert fields[..|fields| - 2][..n] == fields[..n];
      PairsFail(fields[..|fields| - 2], n);
    }
  }

  function ParseValues(canon: Canon, values: map<string, string>): Option<Mutation> {
    if "operation" !in values then None
    else if values["operation"] == "CLEAR_ALL" then (if |values| != 1 then None else Some(ClearAll))
    else if "type" !in values || "id" !in values then None
    else
      var kind := ParseKind(values["type"]);
      if kind.None? then None
      else if values["operation"] == "DISABLE" then
        (if |values| != 3 then None else MakeDisable(canon, kind.value, values["id"]))
      else if values["operation"] != "UPSERT" || |values| != 5 then None
      else if "reason" !in values || "expire_at_ms" !in values then None
      else
        var expireAt := ParseUnsigned(values["expire_at_ms"], MAX_EXPIRE_AT_MS);
        if expireAt.None? then None else MakeUpsert(canon, kind.value, values["id"], values["reason"], expireAt.value)
  }

  function ParseRecord(canon: Canon, fields: RedisValue): Option<Mutation> {
    if !fields.Array? || |fields.elements| % 2 != 0 then None
    else
      var values := Pairs(fields.elements);
      if values.None? then None else ParseValues(canon, values.value)
  }

  lemma PairsOne(before: seq<RedisValue>, k: string, v: string)
    requires |before| % 2 == 0 && Pairs(before).Some? && k !in Pairs(before).value
    ensures |before + [Text(k), Text(v)]| % 2 == 0
    ensures Pairs(before + [Text(k), Text(v)]) == Some(Pairs(before).value[k := v])
  {
    var more := before + [Text(k), Text(v)];
    assert |more| == |before| + 2 && more != [];
    assert more[..|more| - 2] == before;
    assert more[|more| - 2] == Text(k) && more[|more| - 1] == Text(v);
    PairsSnoc(more);
  }

  lemma PairsSnoc(fields: seq<RedisValue>)
    requires |fields| % 2 == 0 && fields != []
    ensures var before, k, v := Pairs(fields[..|fields| - 2]), fields[|fields| - 2], fields[|fields| - 1];
      Pairs(fields) ==
        if before.None? || !k.Text? || !v.Text? || k.text in before.value then None
          else Some(before.value[k.text := v.text])
  {}

  lemma PairsOfUpsert(a: string, b: string, c: string, d: string, e: string)
    ensures Pairs(Texts(["operation", a, "type", b, "id", c, "reason", d, "expire_at_ms", e])) ==
      Some(map["operation" := a, "type" := b, "id" := c, "reason" := d, "expire_at_ms" := e])
  {
    var f1 := [Text("operation"), Text(a)];
    var f2 := f1 + [Text("type"), Text(b)];
    var f3 := f2 + [Text("id"), Text(c)];
    var f4 := f3 + [Text("reason"), Text(d)];
    PairsOne([], "operation", a);
    assert [] + f1 == f1;
    PairsOne(f1, "type", b);
    PairsOne(f2, "id", c);
    PairsOne(f3, "reason", d);
    PairsOne(f4, "expire_at_ms", e);
    assert Texts(["operation", a, "type", b, "id", c, "reason", d, "expire_at_ms", e]) ==
      f4 + [Text("expire_at_ms"), Text(e)];
  }

  lemma PairsOfDisable(a: string, b: string, c: string)
    ensures Pairs(Texts(["operation", a, "type", b, "id", c])) == Some(map["operation" := a, "type" := b, "id" := c])
  {
    var f1 := [Text("operation"), Text(a)];
    var f2 := f1 + [Text("type"), Text(b)];
    PairsOne([], "operation", a);
    assert [] + f1 == f1;
    PairsOne(f1, "type", b);
    PairsOne(f2, "id", c);
    assert Texts(["operation", a, "type", b, "id", c]) == f2 + [Text("id"), Text(c)];
  }

  lemma UpsertRoundTrip(canon: Canon, key: Key, reason: string, expireAt: nat)
    requires Idempotent(canon) && Built(canon, Upsert(key, reason, expireAt))
    ensures ParseRecord(canon, Array(Texts(StreamFields(Upsert(key, reason, expireAt))))) ==
      Some(Upsert(key, reason, expireAt))
  {
    var values := map["operation" := "UPSERT", "type" := KindText(key.kind), "id" := key.id, "reason" := reason,
      "expire_at_ms" := Decimal(expireAt)];
    PairsOfUpsert("UPSERT", KindText(key.kind), key.id, reason, Decimal(expireAt));
    FiveFields(values);
    ParseUpsert(canon, values, key, reason, expireAt);
  }

  lemma ParseUpsert(canon: Canon, values: map<string, string>, key: Key, reason: string, expireAt: nat)
    requires Idempotent(canon) && Built(canon, Upsert(key, reason, expireAt)) && |values| == 5
    requires values.Keys == {"operation", "type", "id", "reason", "expire_at_ms"} && values["operation"] == "UPSERT"
    requires values["type"] == KindText(key.kind) && values["id"] == key.id && values["reason"] == reason
    requires values["expire_at_ms"] == Decimal(expireAt)
    ensures ParseValues(canon, values) == Some(Upsert(key, reason, expireAt))
  {
    var id :| MakeUpsert(canon, key.kind, id, reason, expireAt) == Some(Upsert(key, reason, expireAt));
    UnsignedRoundTrip(Decimal(expireAt), expireAt, MAX_EXPIRE_AT_MS);
  }

  lemma DisableRoundTrip(canon: Canon, key: Key)
    requires Idempotent(canon) && Built(canon, Disable(key))
    ensures ParseRecord(canon, Array(Texts(StreamFields(Disable(key))))) == Some(Disable(key))
  {
    var id :| MakeDisable(canon, key.kind, id) == Some(Disable(key));
    PairsOfDisable("DISABLE", KindText(key.kind), key.id);
    ThreeFields(map["operation" := "DISABLE", "type" := KindText(key.kind), "id" := key.id]);
  }

  /** Round trip: the record of any mutation a factory can build parses back to it. */
  lemma RecordRoundTrip(canon: Canon, m: Mutation)
    requires Idempotent(canon) && Built(canon, m)
    ensures ParseRecord(canon, Array(Texts(StreamFields(m)))) == Some(m)
  {
    match m
    case Upsert(key, reason, expireAt) => UpsertRoundTrip(canon, key, reason, expireAt);
    case Disable(key) => DisableRoundTrip(canon, key);
    case ClearAll =>
      PairsOne([], "operation", "CLEAR_ALL");
      assert Texts(["operation", "CLEAR_ALL"]) == [] + [Text("operation"), Text("CLEAR_ALL")];
      OneField(map["operation" := "CLEAR_ALL"]);
  }

  lemma FiveFields(m: map<string, string>)
    requires m.Keys == {"operation", "type", "id", "reason", "expire_at_ms"}
    ensures |m| == 5
  {
    assert |m| == |m.Keys|;
  }

  lemma ThreeFields(m: map<string, string>)
    requires m.Keys == {"operation", "type", "id"}
    ensures |m| == 3
  {
    assert |m| == |m.Keys|;
  }

  lemma OneField(m: map<string, string>)
    requires m.Keys == {"operation"}
    ensures |m| == 1
  {
    assert |m| == |m.Keys|;
  }

  /** The parser makes nothing up: whatever it accepts, a factory builds, and its own
      record parses to the same mutation again. */
  lemma ParsedIsBuilt(canon: Canon, fields: RedisValue)
    requires Idempotent(canon) && ParseRecord(canon, fields).Some?
    ensures Built(canon, ParseRecord(canon, fields).value)
    ensures ParseRecord(canon, Array(Texts(StreamFields(ParseRecord(canon, fields).value)))) ==
      ParseRecord(canon, fields)
  {
    RecordRoundTrip(canon, ParseRecord(canon, fields).value);
  }
}
