/**
 * The connector configuration store: a JSON file mapping each connector name to its
 * `connector_type` and `config`. When an encryption key is configured, the file instead holds an
 * envelope `{"encrypted": true, "payload": <ciphertext>}` whose ciphertext encrypts the JSON text
 * of that mapping.
 *
 * The file is its text (`None` when it does not exist). JSON encoding and decoding and the cipher
 * are parameters of the store (a `Codec`); the round trips the store relies on are stated by
 * `RoundTrips` and assumed only where a lemma says so.
 */
module ConfigStore {
  import opened Results
  import opened Text
  import opened Json

  /** `ConnectorConfigEntry`: the record `get` and `list` build from a stored payload. */
  datatype Entry = Entry(name: string, connectorType: Json, config: Json)

  /**
   * `json.dumps`, `json.loads` (which raises on malformed text), and Fernet encryption and
   * decryption under a key (either may raise, e.g. on a malformed key or a forged token).
   */
  datatype Codec = Codec(
    dumps: Json -> string,
    loads: string -> Result<Json>,
    encrypt: (string, string) -> Result<string>,
    decrypt: (string, string) -> Result<string>)

  /**
   * JSON text decodes back to the value it encodes, and decryption inverts encryption, whose
   * tokens are never empty.
   */
  ghost predicate RoundTrips(c: Codec) {
    && (forall v :: c.loads(c.dumps(v)) == Ok(v))
    && (forall k, s :: c.encrypt(k, s).Ok? ==> c.encrypt(k, s).value != "" && c.decrypt(k, c.encrypt(k, s).value) == Ok(s))
  }

  const EncryptedField: string := "encrypted"
  const PayloadField: string := "payload"
  const ConnectorTypeField: string := "connector_type"
  const ConfigField: string := "config"

  const MissingPayload: string := "ValueError: Encrypted connector config missing payload"
  const KeyNotConfigured: string := "ValueError: Encryption key not configured"
  const MissingConnectorType: string := "KeyError: 'connector_type'"
  const StringIndex: string := "TypeError: string indices must be integers, not 'str'"
  const ListIndex: string := "TypeError: list indices must be integers or slices, not str"
  const PopNeedsIndex: string := "TypeError: 'str' object cannot be interpreted as an integer"
  const StrHasNoPop: string := "AttributeError: 'str' object has no attribute 'pop'"
  const AttributeErrorHead: string := "AttributeError: '"
  const TypeErrorHead: string := "TypeError: '"
  const NotSubscriptableTail: string := "' object is not subscriptable"
  const NoItemsTail: string := "' object has no attribute 'items'"
  const NoEncodeTail: string := "' object has no attribute 'encode'"
  const NoItemAssignmentTail: string := "' object does not support item assignment"
  const NotIterableHead: string := "TypeError: argument of type '"
  const NotIterableTail: string := "' is not iterable"

  /** `encryption_key or os.getenv(...)`: a key is configured when it is a non-empty string. */
  predicate KeySet(key: Option<string>) {
    key.Some? && key.value != ""
  }

  /** The store's key: the one given when it is non-empty, otherwise the environment's. */
  function ChooseKey(given: Option<string>, environment: Option<string>): (k: Option<string>)
    ensures KeySet(given) ==> k == given
    ensures !KeySet(given) ==> k == environment
  {
    if KeySet(given) then given else environment
  }

  /** The envelope an encrypted file holds. */
  function Envelope(ciphertext: string): Json {
    JObj(map[EncryptedField := JBool(true), PayloadField := JStr(ciphertext)])
  }

  /**
   * The corrected test that a decoded file is an envelope: its `"encrypted"` field is the boolean
   * `true`, which no saved entry (always a dict) can be. The source's store only asks that the
   * field be truthy (`IsEnvelopeAsWritten`), so a keyless store holding a connector named
   * `"encrypted"` takes its own file for an envelope (`EncryptedNameBreaksStore`). `Decode` and
   * everything built on it (the class included) use this corrected test.
   */
  predicate IsEnvelope(raw: Json) {
    raw.JObj? && Lookup(raw.fields, EncryptedField, JNull) == JBool(true)
  }

  /** The test as written in the source: the `"encrypted"` field is merely truthy. */
  predicate IsEnvelopeAsWritten(raw: Json) {
    raw.JObj? && Truthy(Lookup(raw.fields, EncryptedField, JNull))
  }

  /** The error `payload.encode()` raises on a payload that is not a string. */
  function NoEncode(v: Json): string {
    AttributeErrorHead + TypeName(v) + NoEncodeTail
  }

  /**
   * The contents of an envelope: a missing or falsy payload raises, decryption needs a key, and
   * the plaintext is decoded as JSON.
   */
  function Unwrap(envelope: Object, key: Option<string>, codec: Codec): (r: Result<Json>)
    ensures !Truthy(Lookup(envelope, PayloadField, JNull)) ==> r == Err(MissingPayload)
    ensures Truthy(Lookup(envelope, PayloadField, JNull)) && !KeySet(key) ==> r == Err(KeyNotConfigured)
    ensures r.Ok? ==> KeySet(key) && Lookup(envelope, PayloadField, JNull).JStr?
  {
    var payload := Lookup(envelope, PayloadField, JNull);
    if !Truthy(payload) then Err(MissingPayload)
    else if !KeySet(key) then Err(KeyNotConfigured)
    else if !payload.JStr? then Err(NoEncode(payload))
    else
      var text :- codec.decrypt(key.value, payload.s);
      codec.loads(text)
  }

  /** `_read_raw`: no file reads as an empty mapping; an envelope reads as its contents. */
  function Decode(file: Option<string>, key: Option<string>, codec: Codec): (r: Result<Json>)
    ensures file.None? ==> r == Ok(EmptyObject)
    ensures file.Some? && codec.loads(file.value).Ok? && !IsEnvelope(codec.loads(file.value).value) ==>
      r == codec.loads(file.value)
    ensures file.Some? && codec.loads(file.value).Ok? && IsEnvelope(codec.loads(file.value).value) ==>
      r == Unwrap(codec.loads(file.value).value.fields, key, codec)
  {
    if file.None? then Ok(EmptyObject)
    else
      var raw :- codec.loads(file.value);
      if IsEnvelope(raw) then Unwrap(raw.fields, key, codec) else Ok(raw)
  }

  /** `_read_raw` as written, with the truthiness test for an envelope. */
  function DecodeAsWritten(file: Option<string>, key: Option<string>, codec: Codec): (r: Result<Json>)
    ensures file.None? ==> r == Ok(EmptyObject)
    ensures file.Some? && codec.loads(file.value).Ok? && IsEnvelopeAsWritten(codec.loads(file.value).value) ==>
      r == Unwrap(codec.loads(file.value).value.fields, key, codec)
  {
    if file.None? then Ok(EmptyObject)
    else
      var raw :- codec.loads(file.value);
      if IsEnvelopeAsWritten(raw) then Unwrap(raw.fields, key, codec) else Ok(raw)
  }

  /**
   * Both envelope tests accept every envelope the store writes, and the as-written test accepts
   * everything the corrected one does.
   */
  lemma EnvelopeTestsAgreeOnEnvelopes(ciphertext: string, raw: Json)
    ensures IsEnvelope(Envelope(ciphertext)) && IsEnvelopeAsWritten(Envelope(ciphertext))
    ensures IsEnvelope(raw) ==> IsEnvelopeAsWritten(raw)
  {
  }

  /**
   * The corrected and the as-written reads differ only on a file whose `"encrypted"` field is
   * truthy without being `true`.
   */
  lemma DecodesDifferOnlyOnTruthyMarker(file: Option<string>, key: Option<string>, codec: Codec)
    ensures Decode(file, key, codec) != DecodeAsWritten(file, key, codec) ==>
      && file.Some? && codec.loads(file.value).Ok?
      && IsEnvelopeAsWritten(codec.loads(file.value).value) && !IsEnvelope(codec.loads(file.value).value)
  {
  }

  /** `_write_raw`: the text of the file that holds `data`, sealed in an envelope when a key is set. */
  function Encode(data: Json, key: Option<string>, codec: Codec): (r: Result<string>)
    ensures !KeySet(key) ==> r == Ok(codec.dumps(data))
  {
    if KeySet(key) then
      var ciphertext :- codec.encrypt(key.value, codec.dumps(data));
      Ok(codec.dumps(Envelope(ciphertext)))
    else Ok(codec.dumps(data))
  }

  /** The error `payload[...]` raises with a string key on a value that is not a dict. */
  function NotSubscriptable(v: Json): string {
    match v
    case JStr(_) => StringIndex
    case JArr(_) => ListIndex
    case _ => TypeErrorHead + TypeName(v) + NotSubscriptableTail
  }

  /** The entry built from a stored payload: its `connector_type` is required, its `config` defaults to `{}`. */
  function EntryOf(name: string, payload: Json): (r: Result<Entry>)
    ensures r.Ok? <==> payload.JObj? && ConnectorTypeField in payload.fields
    ensures payload.JObj? && ConnectorTypeField !in payload.fields ==> r == Err(MissingConnectorType)
    ensures r.Ok? ==> r.value.name == name && r.value.connectorType == payload.fields[ConnectorTypeField]
    ensures r.Ok? ==> r.value.config == Lookup(payload.fields, ConfigField, EmptyObject)
  {
    match payload
    case JObj(fields) =>
      if ConnectorTypeField in fields then Ok(Entry(name, fields[ConnectorTypeField], Lookup(fields, ConfigField, EmptyObject)))
      else Err(MissingConnectorType)
    case _ => Err(NotSubscriptable(payload))
  }

  /** The payload `save` stores for an entry. */
  function Stored(entry: Entry): (p: Json)
    ensures EntryOf(entry.name, p) == Ok(entry)
    ensures Truthy(p)
  {
    JObj(map[ConnectorTypeField := entry.connectorType, ConfigField := entry.config])
  }

  /** Whether every stored payload yields an entry. */
  predicate AllEntries(fields: Object) {
    forall n :: n in fields ==> EntryOf(n, fields[n]).Ok?
  }

  /** The error `data.items()` raises on a value that is not a dict. */
  function NoItems(v: Json): string {
    AttributeErrorHead + TypeName(v) + NoItemsTail
  }

  /**
   * The part of `list` after the read: one entry per stored name. Which malformed payload raises
   * first depends on the file's key order, so any malformed payload is reported as the KeyError.
   */
  function ListOf(data: Json): (r: Result<map<string, Entry>>)
    ensures !data.JObj? ==> r == Err(NoItems(data))
    ensures r.Ok? <==> data.JObj? && AllEntries(data.fields)
    ensures r.Ok? ==> r.value.Keys == data.fields.Keys
    ensures r.Ok? ==> forall n :: n in r.value ==> EntryOf(n, data.fields[n]) == Ok(r.value[n])
  {
    match data
    case JObj(fields) =>
      if AllEntries(fields) then Ok(map n | n in fields :: EntryOf(n, fields[n]).value)
      else Err(MissingConnectorType)
    case _ => Err(NoItems(data))
  }

  /** The part of `get` after the read: no entry for an unknown name or a falsy payload. */
  function GetOf(data: Json, name: string): (r: Result<Option<Entry>>)
    ensures !data.JObj? ==> r == Err(NoGet(data))
    ensures data.JObj? && (name !in data.fields || !Truthy(data.fields[name])) ==> r == Ok(None)
    ensures data.JObj? && name in data.fields && Truthy(data.fields[name]) ==>
      r == (var e := EntryOf(name, data.fields[name]); if e.Ok? then Ok(Some(e.value)) else Err(e.error))
  {
    var payload :- Get(data, name);
    if !Truthy(payload) then Ok(None)
    else
      var e :- EntryOf(name, payload);
      Ok(Some(e))
  }

  /** `list` on a file. */
  function ListFrom(file: Option<string>, key: Option<string>, codec: Codec): (r: Result<map<string, Entry>>)
    ensures file.None? ==> r == Ok(map[])
  {
    var data :- Decode(file, key, codec);
    ListOf(data)
  }

  /** `get` on a file. */
  function GetFrom(file: Option<string>, key: Option<string>, codec: Codec, name: string): (r: Result<Option<Entry>>)
    ensures file.None? ==> r == Ok(None)
  {
    var data :- Decode(file, key, codec);
    GetOf(data, name)
  }

  /** `get` on a file, with the source's envelope test. */
  function GetFromAsWritten(file: Option<string>, key: Option<string>, codec: Codec, name: string): (r: Result<Option<Entry>>)
    ensures file.None? ==> r == Ok(None)
  {
    var data :- DecodeAsWritten(file, key, codec);
    GetOf(data, name)
  }

  /**
   * The error `data[name] = ...` raises on a value that is not a dict: a list wants an integer
   * index, and any other value cannot be assigned into.
   */
  function NoItemAssignment(v: Json): string {
    if v.JArr? then ListIndex else TypeErrorHead + TypeName(v) + NoItemAssignmentTail
  }

  /** `save`: the new text of the file, or the error that leaves it as it was. */
  function Saved(file: Option<string>, key: Option<string>, codec: Codec, entry: Entry): (r: Result<string>)
    ensures Decode(file, key, codec).Err? ==> r == Err(Decode(file, key, codec).error)
    ensures Decode(file, key, codec).Ok? && !Decode(file, key, codec).value.JObj? ==>
      r == Err(NoItemAssignment(Decode(file, key, codec).value))
    ensures Decode(file, key, codec).Ok? && Decode(file, key, codec).value.JArr? ==> r == Err(ListIndex)
  {
    var data :- Decode(file, key, codec);
    if !data.JObj? then Err(NoItemAssignment(data))
    else Encode(JObj(data.fields[entry.name := Stored(entry)]), key, codec)
  }

  /** The error `name in data` raises on a value that cannot be searched. */
  function NotIterable(v: Json): string {
    NotIterableHead + TypeName(v) + NotIterableTail
  }

  /**
   * `delete`: `None` when the name is absent (nothing is written), otherwise the new text of the
   * file. Python's `in` and `pop` also accept a decoded list or string.
   */
  function Deleted(file: Option<string>, key: Option<string>, codec: Codec, name: string): (r: Result<Option<string>>)
    ensures Decode(file, key, codec).Err? ==> r == Err(Decode(file, key, codec).error)
    ensures (Decode(file, key, codec).Ok? && Decode(file, key, codec).value.JObj?
             && name !in Decode(file, key, codec).value.fields) ==> r == Ok(None)
    ensures (Decode(file, key, codec).Ok? && Decode(file, key, codec).value.JArr?
             && JStr(name) in Decode(file, key, codec).value.items) ==> r == Err(PopNeedsIndex)
    ensures (Decode(file, key, codec).Ok? && (Decode(file, key, codec).value.JNull?
             || Decode(file, key, codec).value.JBool? || Decode(file, key, codec).value.JInt?)) ==>
      r == Err(NotIterable(Decode(file, key, codec).value))
  {
    var data :- Decode(file, key, codec);
    match data
    case JObj(fields) =>
      if name !in fields then Ok(None)
      else
        var text :- Encode(JObj(fields - {name}), key, codec);
        Ok(Some(text))
    case JArr(items) => if JStr(name) !in items then Ok(None) else Err(PopNeedsIndex)
    case JStr(s) => if !Contains(s, name) then Ok(None) else Err(StrHasNoPop)
    case _ => Err(NotIterable(data))
  }

  /** Writing a mapping and reading it back yields the mapping. */
  lemma EncodeThenDecode(data: Object, key: Option<string>, codec: Codec)
    requires RoundTrips(codec)
    requires Encode(JObj(data), key, codec).Ok?
    requires !KeySet(key) ==> !IsEnvelope(JObj(data))
    ensures Decode(Some(Encode(JObj(data), key, codec).value), key, codec) == Ok(JObj(data))
  {
    var text := Encode(JObj(data), key, codec).value;
    if KeySet(key) {
      var sealed := codec.encrypt(key.value, codec.dumps(JObj(data)));
      assert codec.decrypt(key.value, sealed.value) == Ok(codec.dumps(JObj(data)));
      assert text == codec.dumps(Envelope(sealed.value));
      assert codec.loads(text) == Ok(Envelope(sealed.value));
      assert IsEnvelope(Envelope(sealed.value));
      assert Lookup(Envelope(sealed.value).fields, PayloadField, JNull) == JStr(sealed.value);
      assert Unwrap(Envelope(sealed.value).fields, key, codec) == codec.loads(codec.dumps(JObj(data)));
    } else {
      assert codec.loads(text) == Ok(JObj(data));
    }
  }

  /** A mapping that `Decode` read successfully without a key is not an envelope. */
  lemma KeylessReadIsPlain(file: Option<string>, key: Option<string>, codec: Codec)
    requires !KeySet(key) && Decode(file, key, codec).Ok?
    ensures !IsEnvelope(Decode(file, key, codec).value)
  {
  }

  /** `save` then `get` of the same name yields the saved entry. */
  lemma SaveThenGet(file: Option<string>, key: Option<string>, codec: Codec, entry: Entry)
    requires RoundTrips(codec) && Saved(file, key, codec, entry).Ok?
    ensures GetFrom(Some(Saved(file, key, codec, entry).value), key, codec, entry.name) == Ok(Some(entry))
  {
    var data := Decode(file, key, codec).value.fields;
    var updated := data[entry.name := Stored(entry)];
    if !KeySet(key) {
      KeylessReadIsPlain(file, key, codec);
      assert !IsEnvelope(JObj(updated));
    }
    EncodeThenDecode(updated, key, codec);
  }

  /** `save` leaves the entry of every other name as it was. */
  lemma SaveKeepsOthers(file: Option<string>, key: Option<string>, codec: Codec, entry: Entry, other: string)
    requires RoundTrips(codec) && Saved(file, key, codec, entry).Ok? && other != entry.name
    ensures GetFrom(Some(Saved(file, key, codec, entry).value), key, codec, other) == GetFrom(file, key, codec, other)
  {
    var data := Decode(file, key, codec).value.fields;
    var updated := data[entry.name := Stored(entry)];
    if !KeySet(key) {
      KeylessReadIsPlain(file, key, codec);
      assert !IsEnvelope(JObj(updated)) by {
        assert Lookup(updated, EncryptedField, JNull) == Lookup(data, EncryptedField, JNull) || entry.name == EncryptedField;
      }
    }
    EncodeThenDecode(updated, key, codec);
    assert (other in updated) == (other in data);
    assert other in data ==> updated[other] == data[other];
  }

  /** `delete` reports whether the name was stored, when the file holds a mapping. */
  lemma DeleteReportsPresence(file: Option<string>, key: Option<string>, codec: Codec, name: string)
    requires Decode(file, key, codec).Ok? && Decode(file, key, codec).value.JObj?
    requires Deleted(file, key, codec, name).Ok?
    ensures Deleted(file, key, codec, name).value.Some? <==> name in Decode(file, key, codec).value.fields
  {
  }

  /** After `delete` removes a name, `get` finds nothing under it and the other names are untouched. */
  lemma DeleteThenGet(file: Option<string>, key: Option<string>, codec: Codec, name: string, other: string)
    requires RoundTrips(codec)
    requires Deleted(file, key, codec, name).Ok? && Deleted(file, key, codec, name).value.Some?
    ensures GetFrom(Deleted(file, key, codec, name).value, key, codec, name) == Ok(None)
    ensures other != name ==>
      GetFrom(Deleted(file, key, codec, name).value, key, codec, other) == GetFrom(file, key, codec, other)
  {
    var data := Decode(file, key, codec).value.fields;
    var rest := data - {name};
    if !KeySet(key) {
      KeylessReadIsPlain(file, key, codec);
      assert !IsEnvelope(JObj(rest)) by {
        assert EncryptedField in rest ==> rest[EncryptedField] == data[EncryptedField];
      }
    }
    EncodeThenDecode(rest, key, codec);
    assert other != name ==> (other in rest) == (other in data);
  }

  /** With a key, `save` writes an envelope whose payload decrypts to the JSON text of the mapping. */
  lemma KeyedSaveWritesEnvelope(file: Option<string>, key: Option<string>, codec: Codec, entry: Entry)
    requires RoundTrips(codec) && KeySet(key) && Saved(file, key, codec, entry).Ok?
    ensures exists ciphertext ::
      && codec.loads(Saved(file, key, codec, entry).value) == Ok(Envelope(ciphertext))
      && codec.decrypt(key.value, ciphertext) ==
           Ok(codec.dumps(JObj(Decode(file, key, codec).value.fields[entry.name := Stored(entry)])))
  {
    var plain := codec.dumps(JObj(Decode(file, key, codec).value.fields[entry.name := Stored(entry)]));
    var sealed := codec.encrypt(key.value, plain).value;
    assert codec.loads(Saved(file, key, codec, entry).value) == Ok(Envelope(sealed));
  }

  /** An envelope without a payload cannot be read, with or without a key. */
  lemma EnvelopeNeedsPayload(file: string, key: Option<string>, codec: Codec)
    requires codec.loads(file) == Ok(JObj(map[EncryptedField := JBool(true)]))
    ensures Decode(Some(file), key, codec) == Err(MissingPayload)
    ensures DecodeAsWritten(Some(file), key, codec) == Err(MissingPayload)
  {
    var raw := JObj(map[EncryptedField := JBool(true)]);
    assert IsEnvelope(raw) && IsEnvelopeAsWritten(raw);
    assert Lookup(raw.fields, PayloadField, JNull) == JNull;
  }

  /**
   * As written, a store without a key that saves a connector named `"encrypted"` can no longer
   * read its file: the saved payload makes the mapping look like an envelope without a payload.
   * The store's own test reads the same file back.
   */
  lemma EncryptedNameBreaksStore(codec: Codec, entry: Entry)
    requires RoundTrips(codec) && entry.name == EncryptedField
    ensures Saved(None, None, codec, entry).Ok?
    ensures GetFromAsWritten(Some(Saved(None, None, codec, entry).value), None, codec, entry.name) == Err(MissingPayload)
    ensures GetFrom(Some(Saved(None, None, codec, entry).value), None, codec, entry.name) == Ok(Some(entry))
  {
    var updated := map[][entry.name := Stored(entry)];
    assert Saved(None, None, codec, entry) == Ok(codec.dumps(JObj(updated)));
    assert codec.loads(codec.dumps(JObj(updated))) == Ok(JObj(updated));
    assert IsEnvelopeAsWritten(JObj(updated));
    assert Lookup(updated, PayloadField, JNull) == JNull;
    SaveThenGet(None, None, codec, entry);
  }

  /** `ConnectorConfigStore`: the file's text and the key it uses. */
  class ConnectorConfigStore {
    const encryptionKey: Option<string>
    const codec: Codec
    var file: Option<string>

    /** `__init__`: the given key, or the environment's when the given one is absent or empty. */
    constructor (encryptionKey: Option<string>, environmentKey: Option<string>, codec: Codec, file: Option<string>)
      ensures this.encryptionKey == ChooseKey(encryptionKey, environmentKey)
      ensures this.codec == codec && this.file == file
    {
      this.encryptionKey := ChooseKey(encryptionKey, environmentKey);
      this.codec := codec;
      this.file := file;
    }

    /** `list`. */
    function List(): (r: Result<map<string, Entry>>)
      reads this
      ensures file.None? ==> r == Ok(map[])
      ensures r.Ok? ==> forall n :: n in r.value ==> r.value[n].name == n
    {
      ListFrom(file, encryptionKey, codec)
    }

    /** `get`. */
    function Get(name: string): (r: Result<Option<Entry>>)
      reads this
      ensures file.None? ==> r == Ok(None)
      ensures r.Ok? && r.value.Some? ==> r.value.value.name == name
    {
      GetFrom(file, encryptionKey, codec, name)
    }

    /** `save`: the file is rewritten with the entry, or left as it was when the call raises. */
    method Save(entry: Entry) returns (o: Outcome)
      modifies this
      ensures Saved(old(file), encryptionKey, codec, entry).Ok? ==>
        o == Pass && file == Some(Saved(old(file), encryptionKey, codec, entry).value)
      ensures Saved(old(file), encryptionKey, codec, entry).Err? ==>
        o == Fail(Saved(old(file), encryptionKey, codec, entry).error) && file == old(file)
    {
      var data := Decode(file, encryptionKey, codec);
      if data.Err? {
        return Fail(data.error);
      }
      if !data.value.JObj? {
        return Fail(NoItemAssignment(data.value));
      }
      var text := Encode(JObj(data.value.fields[entry.name := Stored(entry)]), encryptionKey, codec);
      if text.Err? {
        return Fail(text.error);
      }
      file := Some(text.value);
      o := Pass;
    }

    /** `delete`: true and the file rewritten without the name, or false and nothing written. */
    method Delete(name: string) returns (r: Result<bool>)
      modifies this
      ensures Deleted(old(file), encryptionKey, codec, name) == Ok(None) ==> r == Ok(false) && file == old(file)
      ensures Deleted(old(file), encryptionKey, codec, name).Ok? && Deleted(old(file), encryptionKey, codec, name).value.Some? ==>
        r == Ok(true) && file == Deleted(old(file), encryptionKey, codec, name).value
      ensures Deleted(old(file), encryptionKey, codec, name).Err? ==>
        r == Err(Deleted(old(file), encryptionKey, codec, name).error) && file == old(file)
    {
      var outcome := Deleted(file, encryptionKey, codec, name);
      if outcome.Err? {
        return Err(outcome.error);
      }
      if outcome.value.None? {
        return Ok(false);
      }
      file := outcome.value;
      r := Ok(true);
    }
  }
}
