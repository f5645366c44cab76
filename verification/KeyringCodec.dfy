/** The keyring file: base64url key text and the payload shape (src/onceproof/keyring.py). */
module KeyringCodec {
  import opened Wrappers
  import opened Verdict

  newtype byte = b: int | 0 <= b < 256

  type Kid = string
  type Key = seq<byte>

  /** One generation of the keyring: every key, and the one new digests use. */
  datatype Ring = Ring(current: Kid, keys: map<Kid, Key>)

  datatype KeyringError =
    | InvalidKeyEncoding
    | InvalidKeyLength
    | InvalidShape
    | UnsupportedVersion
    | InvalidCurrentKid
    | EmptyKeyring
    | InvalidKid
    | InvalidEntry
    | CurrentKeyMissing

  const KEY_BYTES := 32

  type Sextet = s: int | 0 <= s < 64

  // ----- base64 (section 5 of RFC 4648, the URL and filename safe alphabet) -----

  function UrlSymbol(s: Sextet): char {
    if s < 26 then 'A' + s as char
    else if s < 52 then 'a' + (s - 26) as char
    else if s < 62 then '0' + (s - 52) as char
    else if s == 62 then '-'
    else '_'
  }

  /** The library decoder maps '-' and '_' onto '+' and '/', so it accepts all four. */
  function SymbolValue(c: char): Option<Sextet> {
    if 'A' <= c <= 'Z' then Some((c - 'A') as int)
    else if 'a' <= c <= 'z' then Some((c - 'a') as int + 26)
    else if '0' <= c <= '9' then Some((c - '0') as int + 52)
    else if c == '-' || c == '+' then Some(62)
    else if c == '_' || c == '/' then Some(63)
    else None
  }

  function High(a: byte): Sextet { a as int / 4 }
  function MidHigh(a: byte, b: byte): Sextet { a as int % 4 * 16 + b as int / 16 }
  function MidLow(b: byte, c: byte): Sextet { b as int % 16 * 4 + c as int / 64 }
  function Low(c: byte): Sextet { c as int % 64 }

  function First(p: Sextet, q: Sextet): byte { (p * 4 + q / 16) as byte }
  function Second(q: Sextet, r: Sextet): byte { (q % 16 * 16 + r / 4) as byte }
  function Third(r: Sextet, s: Sextet): byte { (r % 4 * 64 + s) as byte }

  /** Bytes in groups of six bits, the last group filled up with zero bits. */
  function Sextets(key: Key): seq<Sextet> {
    if |key| == 0 then []
    else if |key| == 1 then [High(key[0]), MidHigh(key[0], 0)]
    else if |key| == 2 then [High(key[0]), MidHigh(key[0], key[1]), MidLow(key[1], 0)]
    else [High(key[0]), MidHigh(key[0], key[1]), MidLow(key[1], key[2]), Low(key[2])] + Sextets(key[3..])
  }

  /** Bytes named by groups of six bits; left-over bits are dropped. */
  function Bytes(s: seq<Sextet>): Key {
    if |s| < 2 then []
    else if |s| == 2 then [First(s[0], s[1])]
    else if |s| == 3 then [First(s[0], s[1]), Second(s[1], s[2])]
    else [First(s[0], s[1]), Second(s[1], s[2]), Third(s[2], s[3])] + Bytes(s[4..])
  }

  function EncodeKey(key: Key): string {
    var s := Sextets(key);
    seq(|s|, i requires 0 <= i < |s| => UrlSymbol(s[i]))
  }

  function Padding(length: nat): string {
    match length % 4
    case 0 => ""
    case 1 => "==="
    case 2 => "=="
    case _ => "="
  }

  /** Strict decoding removes at most two '=' from the end; any other one is not a symbol. */
  function WithoutPadding(text: string): string {
    if |text| >= 2 && text[|text| - 2] == '=' && text[|text| - 1] == '=' then text[..|text| - 2]
    else if |text| >= 1 && text[|text| - 1] == '=' then text[..|text| - 1]
    else text
  }

  predicate Symbols(text: string) {
    forall i :: 0 <= i < |text| ==> SymbolValue(text[i]).Some?
  }

  function Values(text: string): (s: seq<Sextet>)
    requires Symbols(text)
  {
    seq(|text|, i requires 0 <= i < |text| => SymbolValue(text[i]).value)
  }

  function DecodeKey(text: string): Result<Key, KeyringError> {
    var symbols := WithoutPadding(text + Padding(|text|));
    :- Need(Symbols(symbols), InvalidKeyEncoding);
    var key := Bytes(Values(symbols));
    :- Need(|key| == KEY_BYTES, InvalidKeyLength);
    Success(key)
  }

  lemma SymbolRoundTrip(s: Sextet)
    ensures SymbolValue(UrlSymbol(s)) == Some(s)
    ensures UrlSymbol(s) !in "=+/"
  {
  }

  /** The alphabet of section 5 of RFC 4648 by character codes; the decoder takes the symbols of section 4 as well. */
  lemma Alphabet(c: char, s: Sextet)
    ensures s < 26 ==> UrlSymbol(s) as int == 65 + s
    ensures 26 <= s < 52 ==> UrlSymbol(s) as int == 97 + (s - 26)
    ensures 52 <= s < 62 ==> UrlSymbol(s) as int == 48 + (s - 52)
    ensures UrlSymbol(62) == '-' && UrlSymbol(63) == '_'
    ensures SymbolValue(c) == Some(s) <==> c == UrlSymbol(s) || (s == 62 && c == '+') || (s == 63 && c == '/')
  {
  }

  /** Test vectors of section 10 of RFC 4648, without padding. */
  lemma TestVectors()
    ensures EncodeKey([]) == ""
    ensures EncodeKey([0x66]) == "Zg"
    ensures EncodeKey([0x66, 0x6f]) == "Zm8"
    ensures EncodeKey([0x66, 0x6f, 0x6f]) == "Zm9v"
    ensures EncodeKey([0x66, 0x6f, 0x6f, 0x62]) == "Zm9vYg"
  {
  }

  lemma ValueRoundTrip(c: char)
    requires SymbolValue(c).Some? && c !in "+/"
    ensures UrlSymbol(SymbolValue(c).value) == c
  {
  }

  lemma GroupRoundTrip(a: byte, b: byte, c: byte)
    ensures First(High(a), MidHigh(a, b)) == a
    ensures Second(MidHigh(a, b), MidLow(b, c)) == b
    ensures Third(MidLow(b, c), Low(c)) == c
  {
  }

  lemma TailBits(b: byte)
    ensures MidLow(b, 0) % 4 == 0
  {
  }

  lemma QuadRoundTrip(p: Sextet, q: Sextet, r: Sextet, s: Sextet)
    ensures var a, b, c := First(p, q), Second(q, r), Third(r, s);
            High(a) == p && MidHigh(a, b) == q && MidLow(b, c) == r && Low(c) == s
  {
  }

  lemma TailRoundTrip(p: Sextet, q: Sextet, r: Sextet)
    requires r % 4 == 0
    ensures var a, b := First(p, q), Second(q, r);
            High(a) == p && MidHigh(a, b) == q && MidLow(b, 0) == r
  {
  }

  lemma {:induction false} BytesOfSextets(key: Key)
    ensures Bytes(Sextets(key)) == key
    ensures |Sextets(key)| == |key| / 3 * 4 + (if |key| % 3 == 0 then 0 else |key| % 3 + 1)
    ensures |key| % 3 == 2 ==> Sextets(key)[|Sextets(key)| - 1] % 4 == 0
  {
    hide High, MidHigh, MidLow, Low, First, Second, Third;
    if |key| == 1 {
      GroupRoundTrip(key[0], 0, 0);
      assert key == [key[0]];
    } else if |key| == 2 {
      GroupRoundTrip(key[0], key[1], 0);
      TailBits(key[1]);
      assert key == [key[0], key[1]];
    } else if |key| > 2 {
      GroupRoundTrip(key[0], key[1], key[2]);
      BytesOfSextets(key[3..]);
      assert Sextets(key)[4..] == Sextets(key[3..]);
      assert key == [key[0], key[1], key[2]] + key[3..];
    }
  }

  lemma {:induction false} SextetsOfBytes(s: seq<Sextet>)
    requires |s| % 4 == 3 && s[|s| - 1] % 4 == 0
    ensures Sextets(Bytes(s)) == s
    ensures |Bytes(s)| == |s| / 4 * 3 + 2
  {
    hide High, MidHigh, MidLow, Low, First, Second, Third;
    if |s| == 3 {
      TailRoundTrip(s[0], s[1], s[2]);
      assert s == [s[0], s[1], s[2]];
    } else {
      QuadRoundTrip(s[0], s[1], s[2], s[3]);
      SextetsOfBytes(s[4..]);
      assert Bytes(s)[3..] == Bytes(s[4..]);
      assert s == [s[0], s[1], s[2], s[3]] + s[4..];
    }
  }

  lemma EncodedSymbols(key: Key)
    ensures var text := EncodeKey(key);
            && Symbols(text) && Values(text) == Sextets(key)
            && forall i :: 0 <= i < |text| ==> text[i] !in "=+/"
  {
    var s, text := Sextets(key), EncodeKey(key);
    forall i | 0 <= i < |text|
      ensures SymbolValue(text[i]) == Some(s[i]) && text[i] !in "=+/"
    {
      SymbolRoundTrip(s[i]);
    }
    assert Values(text) == s;
  }

  lemma PaddingIsRemoved(text: string)
    requires Symbols(text) && |text| % 4 == 3
    ensures WithoutPadding(text + Padding(|text|)) == text
  {
    var padded := text + "=";
    assert Padding(|text|) == "=";
    assert padded[|padded| - 2] == text[|text| - 1] && SymbolValue('=').None?;
    assert padded[..|padded| - 1] == text;
  }

  /** Reading back the text written for a root key gives the same key. */
  lemma KeyRoundTrip(key: Key)
    requires |key| == KEY_BYTES
    ensures DecodeKey(EncodeKey(key)) == Success(key)
  {
    hide UrlSymbol, SymbolValue, Sextets, Bytes;
    BytesOfSextets(key);
    EncodedSymbols(key);
    PaddingIsRemoved(EncodeKey(key));
  }

  /** The text written for a root key: 43 symbols of the URL alphabet, the last one with two zero bits. */
  predicate Canonical(text: string) {
    && |text| == 43
    && Symbols(text)
    && (forall i :: 0 <= i < |text| ==> text[i] !in "+/")
    && SymbolValue(text[42]).value % 4 == 0
  }

  lemma {:induction false} BytesLength(s: seq<Sextet>)
    ensures |Bytes(s)| == |s| / 4 * 3 + (if |s| % 4 < 2 then 0 else |s| % 4 - 1)
  {
    hide First, Second, Third;
    if |s| >= 4 {
      BytesLength(s[4..]);
    }
  }

  lemma EqualsIsNoSymbol(text: string)
    ensures SymbolValue('=').None?
    ensures |text| >= 43 && Symbols(text[..43]) ==> text[42] != '='
  {
    if |text| >= 43 && Symbols(text[..43]) { assert SymbolValue(text[..43][42]).Some?; }
  }

  /** The texts that name a key: 43 symbols of either alphabet, alone or followed by one '='. */
  lemma KeyTexts(text: string)
    ensures DecodeKey(text).Success? <==>
            || (|text| == 43 && Symbols(text))
            || (|text| == 44 && text[43] == '=' && Symbols(text[..43]))
  {
    hide SymbolValue, Bytes;
    var symbols := WithoutPadding(text + Padding(|text|));
    if Symbols(symbols) { BytesLength(Values(symbols)); }
    EqualsIsNoSymbol(text);
    if |text| == 43 && Symbols(text) { PaddingIsRemoved(text); }
    if |text| == 43 && text[42] != '=' { assert symbols == text; }
    if |text| == 44 && text[43] == '=' && text[42] != '=' { assert symbols == text[..43]; }
  }

  /** A text survives reading and writing exactly when it is canonical; the decoder accepts others too. */
  lemma KeyTextIsCanonical(text: string)
    ensures (DecodeKey(text).Success? && EncodeKey(DecodeKey(text).value) == text) <==> Canonical(text)
  {
    hide UrlSymbol, SymbolValue, Sextets, Bytes, WithoutPadding;
    if Canonical(text) {
      PaddingIsRemoved(text);
      var s := Values(text);
      SextetsOfBytes(s);
      forall i | 0 <= i < |text| ensures UrlSymbol(s[i]) == text[i] {
        ValueRoundTrip(text[i]);
      }
      assert EncodeKey(Bytes(s)) == text;
    }
    if DecodeKey(text).Success? && EncodeKey(DecodeKey(text).value) == text {
      var key := DecodeKey(text).value;
      BytesOfSextets(key);
      EncodedSymbols(key);
      assert Values(text)[42] == Sextets(key)[42];
    }
  }

  function As(n: nat): (text: string)
    ensures |text| == n && forall i :: 0 <= i < n ==> text[i] == 'A'
  {
    if n == 0 then "" else As(n - 1) + "A"
  }

  /** Accepted texts that are not canonical: nonzero spare bits, a symbol of the other alphabet, padding. */
  lemma LooseTextsAreAccepted(text: string)
    requires text in [As(42) + "B", "+" + As(42), As(43) + "="]
    ensures DecodeKey(text).Success? && EncodeKey(DecodeKey(text).value) != text
  {
    hide DecodeKey, EncodeKey, Bytes, Sextets, UrlSymbol, WithoutPadding, Padding;
    KeyTexts(text);
    KeyTextIsCanonical(text);
    if |text| == 44 {
      assert text[..43] == As(43);
    } else if text[0] != '+' {
      assert text[42] == 'B';
    }
  }

  // ----- the payload -----

  const PAYLOAD_FIELDS: set<string> := {"version", "current_kid", "keys"}

  function SerializedPayload(ring: Ring): Json {
    Obj(map[
      "version" := Int(1),
      "current_kid" := Str(ring.current),
      "keys" := Obj(map kid | kid in ring.keys :: Str(EncodeKey(ring.keys[kid])))])
  }

  /** `value != 1` is false for the number 1, for 1.0 and for true. */
  predicate IsVersionOne(value: Json) {
    value == Int(1) || value == Float(1.0) || value == Bool(true)
  }

  predicate IsKid(kid: string) {
    "hk_" <= kid
  }

  /** What is wrong with one entry, if anything. */
  function EntryError(kid: string, value: Json): Option<KeyringError> {
    if !IsKid(kid) then Some(InvalidKid)
    else if !value.Str? then Some(InvalidKeyEncoding)
    else if DecodeKey(value.text).Failure? then Some(DecodeKey(value.text).error)
    else None
  }

  predicate GoodEntry(kid: string, value: Json) {
    EntryError(kid, value).None?
  }

  /** The parse, with every bad entry told as `InvalidEntry`: which one is met first depends on the file's order. */
  function Parsed(value: Json): Result<Ring, KeyringError> {
    if !(value.Obj? && value.fields.Keys == PAYLOAD_FIELDS) then Failure(InvalidShape) else
    :- Need(IsVersionOne(value.fields["version"]), UnsupportedVersion);
    var current, entries := value.fields["current_kid"], value.fields["keys"];
    :- Need(current.Str? && IsKid(current.text), InvalidCurrentKid);
    :- Need(entries.Obj? && entries.fields != map[], EmptyKeyring);
    :- Need(forall kid | kid in entries.fields :: GoodEntry(kid, entries.fields[kid]), InvalidEntry);
    :- Need(current.text in entries.fields, CurrentKeyMissing);
    Success(Ring(current.text, map kid | kid in entries.fields :: DecodeKey(entries.fields[kid].text).value))
  }

  /** What a payload is refused for, check by check, and what it is read as when it passes them all. */
  lemma ParseAnswers(value: Json)
    ensures if !value.Obj? || value.fields.Keys != {"version", "current_kid", "keys"} then
              Parsed(value) == Failure(InvalidShape)
            else
              var current, entries := value.fields["current_kid"], value.fields["keys"];
              if value.fields["version"] !in {Int(1), Float(1.0), Bool(true)} then
                Parsed(value) == Failure(UnsupportedVersion)
              else if !current.Str? || !("hk_" <= current.text) then Parsed(value) == Failure(InvalidCurrentKid)
              else if !entries.Obj? || entries.fields == map[] then Parsed(value) == Failure(EmptyKeyring)
              else if exists kid :: kid in entries.fields && EntryError(kid, entries.fields[kid]).Some? then
                Parsed(value) == Failure(InvalidEntry)
              else if current.text !in entries.fields then Parsed(value) == Failure(CurrentKeyMissing)
              else
                && Parsed(value).Success?
                && Parsed(value).value.current == current.text
                && Parsed(value).value.keys.Keys == entries.fields.Keys
                && forall kid :: kid in entries.fields ==>
                     entries.fields[kid].Str?
                     && DecodeKey(entries.fields[kid].text) == Success(Parsed(value).value.keys[kid])
    ensures forall kid, entry: Json ::
              && (EntryError(kid, entry) == Some(InvalidKid) <==> !("hk_" <= kid))
              && (EntryError(kid, entry) == Some(InvalidKeyEncoding) <==>
                    "hk_" <= kid && (!entry.Str? || DecodeKey(entry.text) == Failure(InvalidKeyEncoding)))
              && (EntryError(kid, entry) == Some(InvalidKeyLength) <==>
                    "hk_" <= kid && entry.Str? && DecodeKey(entry.text) == Failure(InvalidKeyLength))
  {
  }

  /** What the parser may report of a payload: of several bad entries, any one's error. */
  ghost predicate ParsesTo(value: Json, r: Result<Ring, KeyringError>) {
    if Parsed(value) == Failure(InvalidEntry) then
      && r.Failure?
      && exists kid :: kid in value.fields["keys"].fields
           && EntryError(kid, value.fields["keys"].fields[kid]) == Some(r.error)
    else r == Parsed(value)
  }

  method ParseEntries(entries: map<string, Json>) returns (r: Result<map<Kid, Key>, KeyringError>)
    ensures r.Failure? ==> exists kid :: kid in entries && EntryError(kid, entries[kid]) == Some(r.error)
    ensures r.Success? ==> r.value.Keys == entries.Keys
    ensures r.Success? ==> forall kid :: kid in entries ==>
              GoodEntry(kid, entries[kid]) && Success(r.value[kid]) == DecodeKey(entries[kid].text)
  {
    var keys: map<Kid, Key> := map[];
    var pending := entries.Keys;
    while pending != {}
      invariant pending <= entries.Keys
      invariant keys.Keys == entries.Keys - pending
      invariant forall kid :: kid in keys ==>
                  GoodEntry(kid, entries[kid]) && Success(keys[kid]) == DecodeKey(entries[kid].text)
      decreases pending
    {
      var kid :| kid in pending;
      var encoded := entries[kid];
      if !IsKid(kid) {
        assert EntryError(kid, encoded) == Some(InvalidKid);
        return Failure(InvalidKid);
      }
      if !encoded.Str? {
        assert EntryError(kid, encoded) == Some(InvalidKeyEncoding);
        return Failure(InvalidKeyEncoding);
      }
      var key := DecodeKey(encoded.text);
      if key.Failure? {
        assert EntryError(kid, encoded) == Some(key.error);
        return Failure(key.error);
      }
      keys := keys[kid := key.value];
      pending := pending - {kid};
    }
    return Success(keys);
  }

  method ParsePayload(value: Json) returns (r: Result<Ring, KeyringError>)
    ensures ParsesTo(value, r)
  {
    if !(value.Obj? && value.fields.Keys == PAYLOAD_FIELDS) {
      return Failure(InvalidShape);
    }
    if !IsVersionOne(value.fields["version"]) {
      return Failure(UnsupportedVersion);
    }
    var current, entries := value.fields["current_kid"], value.fields["keys"];
    if !(current.Str? && IsKid(current.text)) {
      return Failure(InvalidCurrentKid);
    }
    if !(entries.Obj? && entries.fields != map[]) {
      return Failure(EmptyKeyring);
    }
    var keys := ParseEntries(entries.fields);
    if keys.Failure? {
      return Failure(keys.error);
    }
    if current.text !in keys.value {
      return Failure(CurrentKeyMissing);
    }
    assert keys.value == map kid | kid in entries.fields :: DecodeKey(entries.fields[kid].text).value;
    return Success(Ring(current.text, keys.value));
  }

  /** What every keyring the code writes looks like. */
  predicate Sound(ring: Ring) {
    && ring.current in ring.keys
    && forall kid :: kid in ring.keys ==> IsKid(kid) && |ring.keys[kid]| == KEY_BYTES
  }

  lemma SerializedFields(ring: Ring)
    ensures var fields := SerializedPayload(ring).fields;
            && fields.Keys == {"version", "current_kid", "keys"}
            && fields["version"] == Int(1)
            && fields["current_kid"] == Str(ring.current)
            && fields["keys"] == Obj(map kid | kid in ring.keys :: Str(EncodeKey(ring.keys[kid])))
  {
  }

  lemma SoundReadsBack(ring: Ring)
    requires Sound(ring)
    ensures Parsed(SerializedPayload(ring)) == Success(ring)
  {
    hide EncodeKey, DecodeKey;
    SerializedFields(ring);
    var entries := map kid | kid in ring.keys :: Str(EncodeKey(ring.keys[kid]));
    forall kid | kid in entries
      ensures GoodEntry(kid, entries[kid]) && DecodeKey(entries[kid].text) == Success(ring.keys[kid])
    {
      KeyRoundTrip(ring.keys[kid]);
    }
    assert ring.current in entries;
    assert ring.keys == map kid | kid in entries :: DecodeKey(entries[kid].text).value;
  }

  /** Whatever the parser accepts is sound. */
  lemma ParsedIsSound(value: Json)
    requires Parsed(value).Success?
    ensures Sound(Parsed(value).value)
  {
    var entries := value.fields["keys"].fields;
    forall kid | kid in entries
      ensures |DecodeKey(entries[kid].text).value| == KEY_BYTES
    {
      assert GoodEntry(kid, entries[kid]);
    }
  }

  /** Beside the number 1, a written keyring also reads back under the version 1.0 or `true`, and under no other. */
  lemma VersionsAccepted(ring: Ring, version: Json)
    requires Sound(ring)
    ensures Parsed(Obj(SerializedPayload(ring).fields["version" := version])) ==
            if version in {Int(1), Float(1.0), Bool(true)} then Success(ring) else Failure(UnsupportedVersion)
  {
    hide EncodeKey, DecodeKey, GoodEntry;
    SoundReadsBack(ring);
    SerializedFields(ring);
    assert SerializedPayload(ring).fields["version" := version].Keys == PAYLOAD_FIELDS;
  }

  /** A written keyring reads back as itself exactly when it is sound. */
  lemma PayloadRoundTrip(ring: Ring)
    ensures Parsed(SerializedPayload(ring)) == Success(ring) <==> Sound(ring)
  {
    if Sound(ring) {
      SoundReadsBack(ring);
    }
    if Parsed(SerializedPayload(ring)) == Success(ring) {
      ParsedIsSound(SerializedPayload(ring));
    }
  }
}
