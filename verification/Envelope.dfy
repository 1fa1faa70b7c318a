// Signed command envelopes: what a device accepts, and what it notices.
module Envelope {
  import opened Canonical
  import opened Wrappers

  // SHA-256, HMAC-SHA-256 with the pairing secret, and the conversions between times and their ISO
  // strings.
  datatype Primitives = Primitives(hash: Text -> Text, mac: (Text, Text) -> Text, iso: int -> Text, time: Text -> int, order: Order)

  ghost predicate Sound(c: Primitives) {
    && TotalOrder(c.order)
    && (forall x, y :: c.hash(x) == c.hash(y) ==> x == y)
    && (forall x, y, secret :: c.mac(x, secret) == c.mac(y, secret) ==> x == y)
    && (forall t :: c.time(c.iso(t)) == t)
  }

  datatype Unsigned = Unsigned(
    authorizationContext: Json, bridgeDeviceId: Text, bridgeRootId: Option<Text>, commandId: Text, commandType: Text,
    connectedLibraryId: Option<Text>, expiresAt: Text, idempotencyKey: Text, issuedAt: Text, payload: Json, payloadHash: Text)

  datatype Envelope = Envelope(unsigned: Unsigned, signature: Text)

  datatype Verdict = DeviceRevoked | WrongDevice | CommandExpired | PayloadChanged | CommandSignatureInvalid
                   | CommandReplayed | CommandAllowed

  const DEFAULT_COMMAND_TTL_MS := 5 * 60 * 1000

  // ASCII only, as all key names are.
  function Units(s: string): (t: Text)
    ensures |t| == |s| && forall i :: 0 <= i < |s| && s[i] < 128 as char ==> t[i] == s[i] as int
  {
    seq(|s|, i requires 0 <= i < |s| => if s[i] < 128 as char then (s[i] as int) as Unit else 0)
  }

  function OrNull(t: Option<Text>): Json {
    if t.Some? then String(t.value) else Null
  }

  function Key(i: nat): string {
    match i
    case 0 => "authorizationContext"
    case 1 => "bridgeDeviceId"
    case 2 => "bridgeRootId"
    case 3 => "commandId"
    case 4 => "commandType"
    case 5 => "connectedLibraryId"
    case 6 => "expiresAt"
    case 7 => "idempotencyKey"
    case 8 => "issuedAt"
    case _ => "payloadHash"
  }

  // The payload itself is covered through its hash.
  function SignedValues(u: Unsigned): (values: seq<Json>)
    ensures |values| == 10
  {
    [u.authorizationContext, String(u.bridgeDeviceId), OrNull(u.bridgeRootId), String(u.commandId), String(u.commandType),
     OrNull(u.connectedLibraryId), String(u.expiresAt), String(u.idempotencyKey), String(u.issuedAt), String(u.payloadHash)]
  }

  function SignedObject(u: Unsigned): Json {
    Object(seq(10, i requires 0 <= i < 10 => Field(Units(Key(i)), SignedValues(u)[i])))
  }

  function PayloadHash(c: Primitives, payload: Json): Text {
    c.hash(Stringify(payload, c.order))
  }

  function Sign(c: Primitives, u: Unsigned, secret: Text): Text {
    c.mac(Stringify(SignedObject(u), c.order), secret)
  }

  // createBridgeCommandEnvelope, with its random identifiers as arguments.
  function Create(c: Primitives, authorizationContext: Option<Json>, bridgeDeviceId: Text, bridgeRootId: Option<Text>,
                  commandId: Text, commandType: Text, connectedLibraryId: Option<Text>, expiresAt: Option<int>,
                  idempotencyKey: Text, issuedAt: int, payload: Option<Json>, secret: Text): Envelope {
    var expiry := if expiresAt.Some? then expiresAt.value else issuedAt + DEFAULT_COMMAND_TTL_MS;
    var body := if payload.Some? then payload.value else Object([]);
    var context := if authorizationContext.Some? then authorizationContext.value else Object([]);
    var u := Unsigned(context, bridgeDeviceId, bridgeRootId, commandId, commandType, connectedLibraryId, c.iso(expiry),
                      idempotencyKey, c.iso(issuedAt), body, PayloadHash(c, body));
    Envelope(u, Sign(c, u, secret))
  }

  function ReplayKey(u: Unsigned): Text {
    u.bridgeDeviceId + [COLON] + u.commandId + [COLON] + u.idempotencyKey
  }

  function Validate(c: Primitives, e: Envelope, revoked: bool, expectedDeviceId: Text, now: int, secret: Text,
                    processed: set<Text>): Verdict {
    var u := e.unsigned;
    if revoked then DeviceRevoked
    else if u.bridgeDeviceId != expectedDeviceId then WrongDevice
    else if c.time(u.expiresAt) <= now then CommandExpired
    else if PayloadHash(c, u.payload) != u.payloadHash then PayloadChanged
    else if e.signature != Sign(c, u, secret) then CommandSignatureInvalid
    else if ReplayKey(u) in processed then CommandReplayed
    else CommandAllowed
  }

  // Length and first letter tell the key names apart.
  lemma KeysDistinct(i: nat, j: nat)
    requires i < j < 10
    ensures Units(Key(i)) != Units(Key(j))
  {
    var s, t := Key(i), Key(j);
    assert |s| != |t| || s[0] != t[0];
    assert s[0] < 128 as char && t[0] < 128 as char;
    assert Units(s)[0] == s[0] as int && Units(t)[0] == t[0] as int;
  }

  lemma SignedValid(u: Unsigned)
    requires Valid(u.authorizationContext)
    ensures Valid(SignedObject(u))
  {
    forall i, j | 0 <= i < j < 10 ensures SignedObject(u).fields[i].key != SignedObject(u).fields[j].key {
      KeysDistinct(i, j);
    }
  }

  // With the same keys in the same places, fields correspond one by one.
  lemma AlignedFields(u: Unsigned, v: Unsigned)
    requires Same(SignedObject(u), SignedObject(v))
    ensures forall i :: 0 <= i < 10 ==> Same(SignedValues(u)[i], SignedValues(v)[i])
  {
    var f, g := SignedObject(u).fields, SignedObject(v).fields;
    forall i | 0 <= i < 10 ensures Same(SignedValues(u)[i], SignedValues(v)[i]) {
      var j :| 0 <= j < 10 && SameField(f[i], g[j]);
      if i < j { KeysDistinct(i, j); }
      if j < i { KeysDistinct(j, i); }
    }
  }

  // An accepted envelope stays accepted after any reordering of the keys of its payload, and after
  // no other change of it.
  lemma PayloadCovered(c: Primitives, u: Unsigned, signature: Text, payload: Json, revoked: bool, device: Text, now: int,
                       secret: Text, processed: set<Text>)
    requires Sound(c) && Valid(u.payload) && Valid(payload)
    requires Validate(c, Envelope(u, signature), revoked, device, now, secret, processed) == CommandAllowed
    ensures Validate(c, Envelope(u.(payload := payload), signature), revoked, device, now, secret, processed)
         == if Same(u.payload, payload) then CommandAllowed else PayloadChanged
  {
    StringifyCanonical(u.payload, payload, c.order);
    assert SignedValues(u.(payload := payload)) == SignedValues(u);
    assert SignedObject(u.(payload := payload)) == SignedObject(u);
  }

  // What any envelope has to be to get past the checks, and which check refuses it: the first one of
  // device, address, time, payload, signature and replay that it fails.
  lemma VerdictOrder(c: Primitives, e: Envelope, revoked: bool, expected: Text, now: int, secret: Text, processed: set<Text>)
    ensures var v, u := Validate(c, e, revoked, expected, now, secret, processed), e.unsigned;
      var live := !revoked;
      var addressed := live && u.bridgeDeviceId == expected;
      var timely := addressed && now < c.time(u.expiresAt);
      var intact := timely && c.hash(Stringify(u.payload, c.order)) == u.payloadHash;
      var signed := intact && c.mac(Stringify(SignedObject(u), c.order), secret) == e.signature;
      var unseen := signed && u.bridgeDeviceId + [COLON] + u.commandId + [COLON] + u.idempotencyKey !in processed;
      && (v == DeviceRevoked <==> revoked)
      && (v == WrongDevice <==> live && !addressed)
      && (v == CommandExpired <==> addressed && !timely)
      && (v == PayloadChanged <==> timely && !intact)
      && (v == CommandSignatureInvalid <==> intact && !signed)
      && (v == CommandReplayed <==> signed && !unseen)
      && (v == CommandAllowed <==> unseen)
  {
  }

  // What createBridgeCommandEnvelope returns is accepted by its device, while that is not revoked,
  // until it expires, once; it is never refused for its contents, and every other refusal has its
  // own cause.
  lemma CreatedIsAllowed(c: Primitives, context: Option<Json>, device: Text, root: Option<Text>, command: Text, kind: Text,
                         library: Option<Text>, expiresAt: Option<int>, key: Text, issuedAt: int, payload: Option<Json>,
                         secret: Text, revoked: bool, expected: Text, now: int, processed: set<Text>)
    requires Sound(c)
    ensures var e := Create(c, context, device, root, command, kind, library, expiresAt, key, issuedAt, payload, secret);
      var v := Validate(c, e, revoked, expected, now, secret, processed);
      var expiry := if expiresAt.Some? then expiresAt.value else issuedAt + 300000;
      var replay := device + [COLON] + command + [COLON] + key;
      && (v == CommandAllowed <==> !revoked && device == expected && now < expiry && replay !in processed)
      && (v == DeviceRevoked <==> revoked)
      && (v == WrongDevice <==> !revoked && device != expected)
      && (v == CommandExpired <==> !revoked && device == expected && expiry <= now)
      && (v == CommandReplayed <==> !revoked && device == expected && now < expiry && replay in processed)
  {
    var e := Create(c, context, device, root, command, kind, library, expiresAt, key, issuedAt, payload, secret);
    VerdictOrder(c, e, revoked, expected, now, secret, processed);
  }

  // A signature made over other fields is never accepted, however the two objects are ordered.
  lemma ForgedIsRefused(c: Primitives, u: Unsigned, other: Unsigned, secret: Text, expected: Text, now: int, processed: set<Text>)
    requires Sound(c) && Valid(u.authorizationContext) && Valid(other.authorizationContext)
    requires !Same(SignedObject(u), SignedObject(other))
    ensures Validate(c, Envelope(u, Sign(c, other, secret)), false, expected, now, secret, processed)
            in {WrongDevice, CommandExpired, PayloadChanged, CommandSignatureInvalid}
  {
    SignedValid(u);
    SignedValid(other);
    StringifyCanonical(SignedObject(u), SignedObject(other), c.order);
  }

  // Nothing that is signed can change under the same signature: an accepted envelope that carries
  // the signature of a created one agrees with it in every signed field, and in the payload, up to
  // key order.
  lemma NothingSignedChanges(c: Primitives, u: Unsigned, v: Unsigned, secret: Text, revoked: bool, device: Text, now: int,
                             processed: set<Text>)
    requires Sound(c) && Valid(u.authorizationContext) && Valid(v.authorizationContext) && Valid(u.payload) && Valid(v.payload)
    requires u.payloadHash == PayloadHash(c, u.payload)
    requires Validate(c, Envelope(v, Sign(c, u, secret)), revoked, device, now, secret, processed) == CommandAllowed
    ensures Same(u.payload, v.payload) && Same(u.authorizationContext, v.authorizationContext)
    ensures v == u.(payload := v.payload, authorizationContext := v.authorizationContext)
  {
    SignedValid(u);
    SignedValid(v);
    StringifyCanonical(SignedObject(u), SignedObject(v), c.order);
    AlignedFields(u, v);
    SameSigned(u, v);
    StringifyCanonical(u.payload, v.payload, c.order);
  }

  lemma SameSigned(u: Unsigned, v: Unsigned)
    requires forall i :: 0 <= i < 10 ==> Same(SignedValues(u)[i], SignedValues(v)[i])
    ensures Same(u.authorizationContext, v.authorizationContext)
    ensures v == u.(payload := v.payload, authorizationContext := v.authorizationContext)
  {
    assert Same(SignedValues(u)[0], SignedValues(v)[0]) && Same(SignedValues(u)[1], SignedValues(v)[1]);
    assert Same(SignedValues(u)[2], SignedValues(v)[2]) && Same(SignedValues(u)[3], SignedValues(v)[3]);
    assert Same(SignedValues(u)[4], SignedValues(v)[4]) && Same(SignedValues(u)[5], SignedValues(v)[5]);
    assert Same(SignedValues(u)[6], SignedValues(v)[6]) && Same(SignedValues(u)[7], SignedValues(v)[7]);
    assert Same(SignedValues(u)[8], SignedValues(v)[8]) && Same(SignedValues(u)[9], SignedValues(v)[9]);
  }
}
