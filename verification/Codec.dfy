/** The byte streams that are hashed into credential, configuration and
    inventory generations. SHA-256 is taken to be collision-free, so a
    fingerprint is represented by the stream that was fed to the hash. */
module Codec {
  import opened Text

  // ---------- big-endian numbers and length-prefixed fields ----------

  function Pow256(k: nat): (r: nat)
    ensures r > 0
  {
    if k == 0 then 1 else 256 * Pow256(k - 1)
  }

  const WORD := Pow256(8)

  function BigEndian(n: nat, k: nat): (r: string)
    ensures |r| == k
  {
    if k == 0 then [] else BigEndian(n / 256, k - 1) + [(n % 256) as char]
  }

  function NumberOf(bytes: string): nat {
    if bytes == [] then 0
    else 256 * NumberOf(bytes[..|bytes| - 1]) + bytes[|bytes| - 1] as nat
  }

  lemma {:induction false} BigEndianInverts(n: nat, k: nat)
    requires n < Pow256(k)
    ensures NumberOf(BigEndian(n, k)) == n
  {
    if k > 0 {
      BigEndianInverts(n / 256, k - 1);
      assert BigEndian(n, k)[..k - 1] == BigEndian(n / 256, k - 1);
    }
  }

  /** Go converts an int64 to uint64 by two's complement. */
  function Word(id: int): nat
    requires -(WORD / 2) <= id < WORD / 2
  {
    if id < 0 then id + WORD else id
  }

  function Field(value: string): string {
    BigEndian(|value|, 8) + value
  }

  function TakeField(bytes: string): Option<(string, string)> {
    if |bytes| < 8 then None
    else
      var n := NumberOf(bytes[..8]);
      if |bytes| < 8 + n then None else Some((bytes[8..8 + n], bytes[8 + n..]))
  }

  lemma FieldInverts(value: string, rest: string)
    requires |value| < WORD
    ensures TakeField(Field(value) + rest) == Some((value, rest))
  {
    var bytes := Field(value) + rest;
    BigEndianInverts(|value|, 8);
    assert bytes[..8] == BigEndian(|value|, 8);
    assert bytes[8..8 + |value|] == value;
    assert bytes[8 + |value|..] == rest;
  }

  // ---------- decimal and boolean text (fmt.Sprint) ----------

  function DigitsOf(n: nat): (r: string)
    ensures |r| > 0
    ensures forall i :: 0 <= i < |r| ==> '0' <= r[i] <= '9'
  {
    if n < 10 then ['0' + n as char] else DigitsOf(n / 10) + ['0' + (n % 10) as char]
  }

  function ValueOfDigits(s: string): int {
    if s == [] then 0 else 10 * ValueOfDigits(s[..|s| - 1]) + (s[|s| - 1] as int - '0' as int)
  }

  lemma {:induction false} DigitsInvert(n: nat)
    ensures ValueOfDigits(DigitsOf(n)) == n
  {
    if n < 10 {
      assert DigitsOf(n)[..0] == [];
    } else {
      DigitsInvert(n / 10);
      assert DigitsOf(n)[..|DigitsOf(n)| - 1] == DigitsOf(n / 10);
    }
  }

  function Decimal(n: int): string {
    if n < 0 then "-" + DigitsOf(-n) else DigitsOf(n)
  }

  function ParseDecimal(s: string): int {
    if s != [] && s[0] == '-' then -ValueOfDigits(s[1..]) else ValueOfDigits(s)
  }

  lemma DecimalInverts(n: int)
    ensures ParseDecimal(Decimal(n)) == n
  {
    if n < 0 {
      DigitsInvert(-n);
      assert Decimal(n)[1..] == DigitsOf(-n);
    } else {
      DigitsInvert(n);
    }
  }

  function BoolText(b: bool): string { if b then "true" else "false" }

  // ---------- Hub credential generation ----------

  datatype HubCredential = HubCredential(id: int, authority: string, verifyTLS: bool, enabled: bool, encrypted: string)

  ghost predicate Storable(c: HubCredential) {
    -(WORD / 2) <= c.id < WORD / 2 && |c.authority| < WORD && |c.encrypted| < WORD
  }

  function Flags(verifyTLS: bool, enabled: bool): char {
    (((if verifyTLS then 1 else 0) + (if enabled then 2 else 0)) as char)
  }

  function HubStream(c: HubCredential): string
    requires -(WORD / 2) <= c.id < WORD / 2
  {
    BigEndian(Word(c.id), 8) + (Field(c.authority) + ([Flags(c.verifyTLS, c.enabled)] + Field(c.encrypted)))
  }

  function DecodeHub(bytes: string): Option<HubCredential> {
    if |bytes| < 8 then None
    else
      var word := NumberOf(bytes[..8]);
      match TakeField(bytes[8..])
      case None => None
      case Some((authority, rest)) =>
        if rest == [] then None
        else
          match TakeField(rest[1..])
          case None => None
          case Some((encrypted, tail)) =>
            var flags := rest[0] as int;
            Some(HubCredential(if word < WORD / 2 then word else word - WORD, authority,
                               flags % 2 == 1, flags / 2 == 1, encrypted))
  }

  lemma HubStreamDecodes(c: HubCredential)
    requires Storable(c)
    ensures DecodeHub(HubStream(c)) == Some(c)
  {
    var bytes := HubStream(c);
    BigEndianInverts(Word(c.id), 8);
    assert bytes[..8] == BigEndian(Word(c.id), 8);
    var afterAuthority := [Flags(c.verifyTLS, c.enabled)] + Field(c.encrypted);
    assert bytes[8..] == Field(c.authority) + afterAuthority;
    FieldInverts(c.authority, afterAuthority);
    assert afterAuthority[1..] == Field(c.encrypted) + [];
    FieldInverts(c.encrypted, []);
  }

  /** Equal fingerprints mean the same Hub, authority, flags and encrypted token. */
  lemma HubGenerationIsInjective(a: HubCredential, b: HubCredential)
    requires Storable(a) && Storable(b)
    ensures HubStream(a) == HubStream(b) <==> a == b
  {
    HubStreamDecodes(a);
    HubStreamDecodes(b);
  }

  // ---------- integration configuration ----------

  function Lookup(settings: map<string, string>, key: string): Option<string> {
    if key in settings then Some(settings[key]) else None
  }

  lemma TaggedTail(tag: char, body: string, rest: string)
    ensures [tag] + body + rest != [] && ([tag] + body + rest)[0] == tag
    ensures ([tag] + body + rest)[1..] == body + rest
    ensures [tag] + [] == [tag] && [] + rest == rest
  {
  }

  function Optional(value: Option<string>): string {
    match value case None => ['\U{0}'] case Some(v) => ['\U{1}'] + Field(v)
  }

  function TakeOptional(bytes: string): (r: Option<(Option<string>, string)>)
    ensures r.Some? ==> |r.value.1| < |bytes|
  {
    if bytes == [] then None
    else if bytes[0] == '\U{0}' then Some((None, bytes[1..]))
    else
      match TakeField(bytes[1..])
      case None => None
      case Some((v, rest)) => Some((Some(v), rest))
  }

  lemma OptionalInverts(value: Option<string>, rest: string)
    requires value.Some? ==> |value.value| < WORD
    ensures TakeOptional(Optional(value) + rest) == Some((value, rest))
  {
    if value.Some? {
      FieldInverts(value.value, rest);
      TaggedTail('\U{1}', Field(value.value), rest);
    } else {
      TaggedTail('\U{0}', [], rest);
    }
  }

  function ConfigStream(keys: seq<string>, settings: map<string, string>, encrypted: string): string {
    if keys == [] then Field(encrypted)
    else Field(keys[0]) + (Optional(Lookup(settings, keys[0])) + ConfigStream(keys[1..], settings, encrypted))
  }

  function DecodeConfig(keys: seq<string>, bytes: string): Option<(map<string, string>, string)> {
    match TakeField(bytes)
    case None => None
    case Some((field, rest)) =>
      if keys == [] then Some((map[], field))
      else
        match TakeOptional(rest)
        case None => None
        case Some((raw, tail)) =>
          match DecodeConfig(keys[1..], tail)
          case None => None
          case Some((settings, encrypted)) =>
            Some((if raw.Some? then settings[keys[0] := raw.value] else settings, encrypted))
  }

  function Restrict(settings: map<string, string>, keys: seq<string>): map<string, string> {
    map k | k in settings && k in keys :: settings[k]
  }

  ghost predicate Fits(settings: map<string, string>) {
    forall k | k in settings :: |settings[k]| < WORD
  }

  lemma {:induction false} ConfigStreamDecodes(keys: seq<string>, settings: map<string, string>, encrypted: string)
    requires Fits(settings) && |encrypted| < WORD && (forall k | k in keys :: |k| < WORD)
    ensures DecodeConfig(keys, ConfigStream(keys, settings, encrypted)) == Some((Restrict(settings, keys), encrypted))
  {
    if keys == [] {
      FieldInverts(encrypted, []);
      assert Field(encrypted) + [] == Field(encrypted);
      assert Restrict(settings, keys) == map[];
    } else {
      var key, raw, tail := keys[0], Lookup(settings, keys[0]), ConfigStream(keys[1..], settings, encrypted);
      ConfigStreamDecodes(keys[1..], settings, encrypted);
      FieldInverts(key, Optional(raw) + tail);
      OptionalInverts(raw, tail);
      RestrictStep(settings, keys);
    }
  }

  lemma RestrictStep(settings: map<string, string>, keys: seq<string>)
    requires keys != []
    ensures keys[0] in settings ==> Restrict(settings, keys)
                                    == Restrict(settings, keys[1..])[keys[0] := settings[keys[0]]]
    ensures keys[0] !in settings ==> Restrict(settings, keys) == Restrict(settings, keys[1..])
  {
    assert forall k :: k in keys <==> k == keys[0] || k in keys[1..];
  }

  /** Equal configuration fingerprints for one key list mean equal settings under
      those keys and an equal encrypted secret (a missing secret counts as empty). */
  lemma ConfigGenerationIsInjective(keys: seq<string>, s1: map<string, string>, e1: string, s2: map<string, string>,
                                    e2: string)
    requires Fits(s1) && Fits(s2) && |e1| < WORD && |e2| < WORD && (forall k | k in keys :: |k| < WORD)
    ensures ConfigStream(keys, s1, e1) == ConfigStream(keys, s2, e2) <==>
            Restrict(s1, keys) == Restrict(s2, keys) && e1 == e2
  {
    ConfigStreamDecodes(keys, s1, e1);
    ConfigStreamDecodes(keys, s2, e2);
    if Restrict(s1, keys) == Restrict(s2, keys) && e1 == e2 {
      ConfigStreamReadsOnlyKeys(keys, keys, s1, e1);
      ConfigStreamReadsOnlyKeys(keys, keys, s2, e2);
    }
  }

  lemma {:induction false} ConfigStreamReadsOnlyKeys(keys: seq<string>, all: seq<string>,
                                                     settings: map<string, string>, encrypted: string)
    requires forall k | k in keys :: k in all
    ensures ConfigStream(keys, settings, encrypted) == ConfigStream(keys, Restrict(settings, all), encrypted)
  {
    if keys != [] {
      ConfigStreamReadsOnlyKeys(keys[1..], all, settings, encrypted);
    }
  }

  // ---------- inventory ----------

  datatype ServerColumns = ServerColumns(id: int, username: Option<string>, serverName: Option<string>,
                                         status: Option<string>,
                                         podName: Option<string>, department: Option<string>, project: Option<string>)
  datatype InventoryRow = InventoryRow(hubId: int, hubName: string, baseURL: string, network: string,
                                       enabled: bool, verifyTLS: bool, encrypted: string, server: Option<ServerColumns>)

  function Deref(value: Option<string>): string {
    match value case None => "" case Some(s) => s
  }

  function Fields(values: seq<string>): string {
    if values == [] then [] else Field(values[0]) + Fields(values[1..])
  }

  function HubTexts(row: InventoryRow): (r: seq<string>) {
    [Decimal(row.hubId), row.hubName, row.baseURL, row.network, BoolText(row.enabled), BoolText(row.verifyTLS),
     row.encrypted]
  }

  function ServerTexts(s: ServerColumns): seq<string> {
    [Decimal(s.id), Deref(s.username), Deref(s.serverName), Deref(s.status), Deref(s.podName), Deref(s.department),
     Deref(s.project)]
  }

  function ServerStream(server: Option<ServerColumns>): string {
    match server case None => ['\U{0}'] case Some(s) => ['\U{1}'] + Fields(ServerTexts(s))
  }

  function RowStream(row: InventoryRow): string {
    Fields(HubTexts(row)) + ServerStream(row.server)
  }

  function InventoryStream(rows: seq<InventoryRow>): string {
    if rows == [] then [] else RowStream(rows[0]) + InventoryStream(rows[1..])
  }

  function TakeFields(n: nat, bytes: string): (r: Option<(seq<string>, string)>)
    ensures r.Some? ==> |r.value.0| == n && |r.value.1| <= |bytes|
  {
    if n == 0 then Some(([], bytes))
    else
      match TakeField(bytes)
      case None => None
      case Some((v, rest)) =>
        match TakeFields(n - 1, rest)
        case None => None
        case Some((vs, tail)) => Some(([v] + vs, tail))
  }

  lemma {:induction false} FieldsInvert(values: seq<string>, rest: string)
    requires forall v | v in values :: |v| < WORD
    ensures TakeFields(|values|, Fields(values) + rest) == Some((values, rest))
  {
    if values == [] {
      assert Fields(values) + rest == rest;
    } else {
      var tail := Fields(values[1..]) + rest;
      assert Fields(values) + rest == Field(values[0]) + tail;
      FieldInverts(values[0], tail);
      FieldsInvert(values[1..], rest);
      assert [values[0]] + values[1..] == values;
    }
  }

  function DecodeServer(v: seq<string>): ServerColumns
    requires |v| == 7
  {
    ServerColumns(ParseDecimal(v[0]), Some(v[1]), Some(v[2]), Some(v[3]), Some(v[4]), Some(v[5]), Some(v[6]))
  }

  function TakeServer(bytes: string): (r: Option<(Option<ServerColumns>, string)>)
    ensures r.Some? ==> |r.value.1| < |bytes|
  {
    if bytes == [] then None
    else if bytes[0] == '\U{0}' then Some((None, bytes[1..]))
    else
      match TakeFields(7, bytes[1..])
      case None => None
      case Some((v, tail)) => Some((Some(DecodeServer(v)), tail))
  }

  function RowOf(h: seq<string>, server: Option<ServerColumns>): InventoryRow
    requires |h| == 7
  {
    InventoryRow(ParseDecimal(h[0]), h[1], h[2], h[3], h[4] == "true", h[5] == "true", h[6], server)
  }

  function DecodeServers(server: Option<ServerColumns>): Option<ServerColumns> {
    match server case None => None case Some(s) => Some(DecodeServer(ServerTexts(s)))
  }

  function TakeRow(bytes: string): (r: Option<(InventoryRow, string)>)
    ensures r.Some? ==> |r.value.1| < |bytes|
  {
    match TakeFields(7, bytes)
    case None => None
    case Some((h, rest)) =>
      match TakeServer(rest)
      case None => None
      case Some((server, tail)) =>
        Some((RowOf(h, server), tail))
  }

  function DecodeInventory(bytes: string): Option<seq<InventoryRow>>
    decreases |bytes|
  {
    if bytes == [] then Some([])
    else
      match TakeRow(bytes)
      case None => None
      case Some((row, tail)) =>
        match DecodeInventory(tail)
        case None => None
        case Some(rows) => Some([row] + rows)
  }

  /** NULL text columns are written as empty fields, so decoding yields empty text. */
  function NullsAsEmpty(row: InventoryRow): InventoryRow {
    row.(server := match row.server
                   case None => None
                   case Some(s) => Some(ServerColumns(s.id, Some(Deref(s.username)), Some(Deref(s.serverName)),
                                                      Some(Deref(s.status)), Some(Deref(s.podName)),
                                                      Some(Deref(s.department)), Some(Deref(s.project)))))
  }

  function AllNullsAsEmpty(rows: seq<InventoryRow>): seq<InventoryRow> {
    if rows == [] then [] else [NullsAsEmpty(rows[0])] + AllNullsAsEmpty(rows[1..])
  }

  ghost predicate RowFits(row: InventoryRow) {
    && (forall v | v in HubTexts(row) :: |v| < WORD)
    && (row.server.Some? ==> forall v | v in ServerTexts(row.server.value) :: |v| < WORD)
  }

  lemma ServerInverts(server: Option<ServerColumns>, rest: string)
    requires server.Some? ==> forall v | v in ServerTexts(server.value) :: |v| < WORD
    ensures TakeServer(ServerStream(server) + rest) ==
            Some((DecodeServers(server), rest))
  {
    if server.Some? {
      FieldsInvert(ServerTexts(server.value), rest);
      TaggedTail('\U{1}', Fields(ServerTexts(server.value)), rest);
    } else {
      TaggedTail('\U{0}', [], rest);
    }
  }

  lemma RegroupThree(a: string, b: string, c: string)
    ensures (a + b) + c == a + (b + c)
  {
  }

  lemma RowInverts(row: InventoryRow, rest: string)
    requires RowFits(row)
    ensures TakeRow(RowStream(row) + rest) == Some((NullsAsEmpty(row), rest))
  {
    var texts, server := HubTexts(row), ServerStream(row.server);
    RegroupThree(Fields(texts), server, rest);
    FieldsInvert(texts, server + rest);
    assert TakeFields(7, RowStream(row) + rest) == Some((texts, server + rest));
    ServerInverts(row.server, rest);
    RowOfTexts(row);
  }

  lemma RowOfTexts(row: InventoryRow)
    ensures RowOf(HubTexts(row), DecodeServers(row.server)) == NullsAsEmpty(row)
  {
    DecimalInverts(row.hubId);
    if row.server.Some? {
      DecimalInverts(row.server.value.id);
    }
  }

  lemma {:induction false} InventoryStreamDecodes(rows: seq<InventoryRow>)
    requires forall row | row in rows :: RowFits(row)
    ensures DecodeInventory(InventoryStream(rows)) == Some(AllNullsAsEmpty(rows))
  {
    if rows != [] {
      InventoryStreamDecodes(rows[1..]);
      RowInverts(rows[0], InventoryStream(rows[1..]));
    }
  }

  /** Equal inventory fingerprints mean equal inventories, row for row, NULL and
      empty text identified. */
  lemma InventoryGenerationIsInjective(a: seq<InventoryRow>, b: seq<InventoryRow>)
    requires forall row | row in a :: RowFits(row)
    requires forall row | row in b :: RowFits(row)
    ensures InventoryStream(a) == InventoryStream(b) <==> AllNullsAsEmpty(a) == AllNullsAsEmpty(b)
  {
    InventoryStreamDecodes(a);
    InventoryStreamDecodes(b);
    InventoryStreamIgnoresNulls(a);
    InventoryStreamIgnoresNulls(b);
  }

  lemma {:induction false} InventoryStreamIgnoresNulls(rows: seq<InventoryRow>)
    ensures InventoryStream(rows) == InventoryStream(AllNullsAsEmpty(rows))
  {
    if rows != [] {
      InventoryStreamIgnoresNulls(rows[1..]);
      assert AllNullsAsEmpty(rows)[1..] == AllNullsAsEmpty(rows[1..]);
      assert RowStream(NullsAsEmpty(rows[0])) == RowStream(rows[0]);
    }
  }

  // ---------- the step-by-step writers ----------

  /** The hash state: everything fed to it so far. */
  class HashState {
    var fed: string

    constructor ()
      ensures fed == []
    {
      fed := [];
    }

    method Write(bytes: string)
      modifies this
      ensures fed == old(fed) + bytes
    {
      fed := fed + bytes;
    }

    method WriteField(value: string)
      modifies this
      ensures fed == old(fed) + Field(value)
    {
      Write(BigEndian(|value|, 8));
      Write(value);
    }
  }

  lemma RegroupFour(a: string, b: string, c: string, d: string)
    ensures [] + a + b + c + d == a + (b + (c + d))
  {
  }

  method HubFlags(verifyTLS: bool, enabled: bool) returns (flags: char)
    ensures flags == Flags(verifyTLS, enabled)
  {
    var bits := 0;
    if verifyTLS {
      bits := bits + 1;
    }
    if enabled {
      bits := bits + 2;
    }
    flags := bits as char;
  }

  method HubCredentialGeneration(id: int, baseURL: string, verifyTLS: bool, enabled: bool, encrypted: string)
      returns (generation: string)
    requires -(WORD / 2) <= id < WORD / 2
    ensures generation == HubStream(HubCredential(id, Authority(baseURL), verifyTLS, enabled, encrypted))
  {
    var h := new HashState();
    h.Write(BigEndian(Word(id), 8));
    h.WriteField(TrimSlashes(TrimSpace(baseURL)));
    var flags := HubFlags(verifyTLS, enabled);
    h.Write([flags]);
    h.WriteField(encrypted);
    RegroupFour(BigEndian(Word(id), 8), Field(Authority(baseURL)), [flags], Field(encrypted));
    generation := h.fed;
  }

  method WriteOptional(h: HashState, value: Option<string>)
    modifies h
    ensures h.fed == old(h.fed) + Optional(value)
  {
    match value {
      case None => h.Write(['\U{0}']);
      case Some(v) =>
        h.Write(['\U{1}']);
        h.WriteField(v);
    }
  }

  method WriteAll(h: HashState, values: seq<string>)
    modifies h
    ensures h.fed == old(h.fed) + Fields(values)
  {
    for i := 0 to |values|
      invariant h.fed + Fields(values[i..]) == old(h.fed) + Fields(values)
    {
      assert values[i..][0] == values[i] && values[i..][1..] == values[i + 1..];
      h.WriteField(values[i]);
    }
  }

  method WriteServer(h: HashState, server: Option<ServerColumns>)
    modifies h
    ensures h.fed == old(h.fed) + ServerStream(server)
  {
    match server {
      case None => h.Write(['\U{0}']);
      case Some(s) =>
        h.Write(['\U{1}']);
        WriteAll(h, ServerTexts(s));
    }
  }

  method IntegrationConfigFingerprint(keys: seq<string>, settings: map<string, string>, encrypted: string)
      returns (fingerprint: string)
    ensures fingerprint == ConfigStream(keys, settings, encrypted)
  {
    var h := new HashState();
    for i := 0 to |keys|
      invariant h.fed + ConfigStream(keys[i..], settings, encrypted) == ConfigStream(keys, settings, encrypted)
    {
      ghost var before := h.fed;
      h.WriteField(keys[i]);
      WriteOptional(h, Lookup(settings, keys[i]));
      assert keys[i..][0] == keys[i] && keys[i..][1..] == keys[i + 1..];
      Regroup(before, Field(keys[i]), Optional(Lookup(settings, keys[i])),
              ConfigStream(keys[i + 1..], settings, encrypted));
    }
    h.WriteField(encrypted);
    fingerprint := h.fed;
  }

  lemma Regroup(a: string, b: string, c: string, d: string)
    ensures a + (b + (c + d)) == a + b + c + d
  {
  }

  lemma RegroupRow(a: string, b: string, c: string, d: string)
    ensures a + ((b + c) + d) == a + b + c + d
  {
  }

  method IntegrationInventoryFingerprint(rows: seq<InventoryRow>) returns (fingerprint: string)
    ensures fingerprint == InventoryStream(rows)
  {
    var h := new HashState();
    for i := 0 to |rows|
      invariant h.fed + InventoryStream(rows[i..]) == InventoryStream(rows)
    {
      ghost var before := h.fed;
      WriteAll(h, HubTexts(rows[i]));
      WriteServer(h, rows[i].server);
      assert rows[i..][0] == rows[i] && rows[i..][1..] == rows[i + 1..];
      RegroupRow(before, Fields(HubTexts(rows[i])), ServerStream(rows[i].server), InventoryStream(rows[i + 1..]));
    }
    fingerprint := h.fed;
  }
}
