/**
  The invite and answer codes and the bytes the host signs
  (src/adapters/signaling/ManualCodeSignalingAdapter.js).

  JSON text, UTF-8 and base64url are an injective codec here: a code is the object it was made from, or
  undecodable. What stays of JavaScript is what the code depends on: absent versus null, truthiness, and
  that JSON.stringify drops undefined properties.
*/
module Invite {
  import opened Keys

  const SESSION_EXPIRY_MS := 5 * 60 * 1000
  const CLOCK_SKEW_MS := 30000

  datatype Json =
    | Undefined
    | Null
    | Bool(value: bool)
    | Num(n: int)
    | Str(s: string)
    | Jwk(key: KeyId)                                // a public key
    | Sdp(id: nat)
    | KemText(secret: nat, recipient: KeyId)         // an encapsulation
    | Signature(signer: KeyId, message: Object)      // encode(signPayload(message, key))

  /** The properties of a JSON object, in order. */
  type Object = seq<(string, Json)>

  datatype Code = Code(payload: Object) | Garbled

  datatype InviteError =
    | Undecodable | MissingFields | BadTimestamp | TooOld | SignatureMissing | SignatureInvalid
    | WrongSession | CryptoFailure | StatusRefused

  datatype Result<T> = Ok(value: T) | Err(error: InviteError)

  /** The fields encodeOffer takes, and decodeOffer gives back. */
  datatype Offer = Offer(
    sdp: Json, publicKey: Json, sessionId: Json, createdAt: Json,
    cipherText: Json, signingKey: Json, signature: Json, ratchetKey: Json)

  datatype Answer = Answer(sdp: Json, publicKey: Json, sessionId: Json, cipherText: Json, ratchetKey: Json)

  predicate Truthy(j: Json) {
    match j
    case Undefined => false
    case Null => false
    case Bool(b) => b
    case Num(n) => n != 0
    case Str(s) => s != ""
    case _ => true
  }

  predicate Nullish(j: Json) {
    j.Undefined? || j.Null?
  }

  /** `j ?? null` */
  function OrNull(j: Json): Json {
    if Nullish(j) then Null else j
  }

  /** JSON.stringify leaves out undefined properties. */
  function Stringify(o: Object): Object {
    if o == [] then []
    else (if o[0].1.Undefined? then [] else [o[0]]) + Stringify(o[1..])
  }

  /** Reading a property that is not there gives undefined. */
  function Property(o: Object, name: string): Json {
    if o == [] then Undefined
    else if o[0].0 == name then o[0].1
    else Property(o[1..], name)
  }

  ghost predicate DistinctNames(o: Object) {
    forall i, j :: 0 <= i < j < |o| ==> o[i].0 != o[j].0
  }

  lemma {:induction false} AbsentProperty(o: Object, name: string)
    requires forall i :: 0 <= i < |o| ==> o[i].0 != name
    ensures Property(o, name) == Undefined
  {
    if o != [] {
      AbsentProperty(o[1..], name);
    }
  }

  /** Writing an object as JSON and reading it back loses no property. */
  lemma {:induction false} StringifyKeepsProperties(o: Object, name: string)
    requires DistinctNames(o)
    ensures Property(Stringify(o), name) == Property(o, name)
  {
    if o != [] {
      assert DistinctNames(o[1..]);
      StringifyKeepsProperties(o[1..], name);
      if o[0].1.Undefined? {
        assert Stringify(o) == Stringify(o[1..]);
        if o[0].0 == name {
          AbsentProperty(o[1..], name);
        }
      } else {
        assert Stringify(o)[1..] == Stringify(o[1..]);
      }
    }
  }

  // ---- The signed bytes ----

  function SignedFields(f: Offer): Object {
    [("s", f.sdp), ("k", f.publicKey), ("i", f.sessionId), ("t", f.createdAt), ("vk", f.signingKey),
     ("rp", OrNull(f.ratchetKey))]
  }

  /** `inviteCanonicalBytes` */
  function CanonicalBytes(f: Offer): Object {
    Stringify(SignedFields(f))
  }

  /** The six fields the signature covers; an absent and a null ratchet key count as the same. */
  ghost predicate SameSignedFields(f: Offer, g: Offer) {
    && f.sdp == g.sdp && f.publicKey == g.publicKey && f.sessionId == g.sessionId
    && f.createdAt == g.createdAt && f.signingKey == g.signingKey
    && OrNull(f.ratchetKey) == OrNull(g.ratchetKey)
  }

  lemma SignedFieldsRead(f: Offer)
    ensures Property(CanonicalBytes(f), "s") == f.sdp
    ensures Property(CanonicalBytes(f), "k") == f.publicKey
    ensures Property(CanonicalBytes(f), "i") == f.sessionId
    ensures Property(CanonicalBytes(f), "t") == f.createdAt
    ensures Property(CanonicalBytes(f), "vk") == f.signingKey
    ensures Property(CanonicalBytes(f), "rp") == OrNull(f.ratchetKey)
  {
    var o := SignedFields(f);
    assert DistinctNames(o);
    StringifyKeepsProperties(o, "s");
    StringifyKeepsProperties(o, "k");
    StringifyKeepsProperties(o, "i");
    StringifyKeepsProperties(o, "t");
    StringifyKeepsProperties(o, "vk");
    StringifyKeepsProperties(o, "rp");
    PropertyAt(o, 0);
    PropertyAt(o, 1);
    PropertyAt(o, 2);
    PropertyAt(o, 3);
    PropertyAt(o, 4);
    PropertyAt(o, 5);
  }

  lemma {:induction false} PropertyAt(o: Object, i: nat)
    requires DistinctNames(o) && i < |o|
    ensures Property(o, o[i].0) == o[i].1
  {
    if i > 0 {
      assert o[1..][i - 1] == o[i];
      PropertyAt(o[1..], i - 1);
    }
  }

  /** Equal signed bytes mean equal fields: all six are covered. */
  lemma CanonicalBytesCoverAll(f: Offer, g: Offer)
    ensures CanonicalBytes(f) == CanonicalBytes(g) <==> SameSignedFields(f, g)
  {
    SignedFieldsRead(f);
    SignedFieldsRead(g);
  }

  // ---- Offer codes ----

  function Optional(name: string, value: Json): Object {
    if Truthy(value) then [(name, value)] else []
  }

  function OfferFields(f: Offer): Object {
    Head(f.sdp, f.publicKey, f.sessionId, f.createdAt)
    + Optional("c", f.cipherText)
    + SigningFields(f)
    + Optional("rp", f.ratchetKey)
  }

  function EncodeOffer(f: Offer): Code {
    Code(Stringify(OfferFields(f)))
  }

  /** `validateTimestamp`: a positive number, at most 30 s in the future. */
  predicate ValidTimestamp(t: Json, now: int) {
    t.Num? && 0 < t.n <= now + CLOCK_SKEW_MS
  }

  predicate PastExpiry(t: Json, now: int)
    requires t.Num?
  {
    now - t.n > SESSION_EXPIRY_MS
  }

  function DecodeOffer(code: Code, now: int): Result<Offer> {
    if code.Garbled? then Err(Undecodable)
    else
      var o := code.payload;
      var t := Property(o, "t");
      if !Truthy(Property(o, "s")) || !Truthy(Property(o, "k")) || !Truthy(Property(o, "i")) || !Truthy(t) then
        Err(MissingFields)
      else if !ValidTimestamp(t, now) then Err(BadTimestamp)
      else if PastExpiry(t, now) then Err(TooOld)
      else Ok(Offer(Property(o, "s"), Property(o, "k"), Property(o, "i"), t,
                    OrNull(Property(o, "c")), OrNull(Property(o, "vk")), OrNull(Property(o, "sig")),
                    OrNull(Property(o, "rp"))))
  }

  /** The required properties come first in both codes. */
  function Head(sdp: Json, publicKey: Json, sessionId: Json, createdAt: Json): Object {
    [("s", sdp), ("k", publicKey), ("i", sessionId), ("t", createdAt)]
  }

  lemma HeadRead(sdp: Json, publicKey: Json, sessionId: Json, createdAt: Json, rest: Object)
    ensures var o := Head(sdp, publicKey, sessionId, createdAt) + rest;
      && Property(o, "s") == sdp && Property(o, "k") == publicKey
      && Property(o, "i") == sessionId && Property(o, "t") == createdAt
      && Property(o, "c") == Property(rest, "c") && Property(o, "rp") == Property(rest, "rp")
      && Property(o, "vk") == Property(rest, "vk") && Property(o, "sig") == Property(rest, "sig")
  {
    var head := Head(sdp, publicKey, sessionId, createdAt);
    var o := head + rest;
    assert o == [head[0]] + ([head[1]] + ([head[2]] + ([head[3]] + rest)));
    PropertyAfter([head[0]], [head[1]] + ([head[2]] + ([head[3]] + rest)), "k");
    PropertyAfter(head[..2], [head[2]] + ([head[3]] + rest), "i");
    assert o == head[..2] + ([head[2]] + ([head[3]] + rest));
    PropertyAfter(head[..3], [head[3]] + rest, "t");
    assert o == head[..3] + ([head[3]] + rest);
    PropertyAfter(head, rest, "c");
    PropertyAfter(head, rest, "rp");
    PropertyAfter(head, rest, "vk");
    PropertyAfter(head, rest, "sig");
  }

  function SigningFields(f: Offer): Object {
    if Truthy(f.signingKey) && Truthy(f.signature) then [("vk", f.signingKey), ("sig", f.signature)] else []
  }

  lemma OfferFieldsDistinct(f: Offer)
    ensures DistinctNames(OfferFields(f))
  {
  }

  lemma OfferFieldsRead(f: Offer)
    ensures var o := OfferFields(f);
      && Property(o, "s") == f.sdp && Property(o, "k") == f.publicKey
      && Property(o, "i") == f.sessionId && Property(o, "t") == f.createdAt
      && Property(o, "c") == (if Truthy(f.cipherText) then f.cipherText else Undefined)
      && Property(o, "vk") == (if Truthy(f.signingKey) && Truthy(f.signature) then f.signingKey else Undefined)
      && Property(o, "sig") == (if Truthy(f.signingKey) && Truthy(f.signature) then f.signature else Undefined)
      && Property(o, "rp") == (if Truthy(f.ratchetKey) then f.ratchetKey else Undefined)
  {
    var last := Optional("rp", f.ratchetKey);
    var rest := Optional("c", f.cipherText) + (SigningFields(f) + last);
    assert OfferFields(f) == Head(f.sdp, f.publicKey, f.sessionId, f.createdAt) + rest;
    HeadRead(f.sdp, f.publicKey, f.sessionId, f.createdAt, rest);
    PropertyOfOptional("c", f.cipherText, SigningFields(f) + last);
    PropertyAfter(SigningFields(f), last, "c");
    PropertyAfter(SigningFields(f), last, "rp");
    PropertyOfSigning(f, last);
  }

  /** Properties written first are skipped when another name is read. */
  lemma {:induction false} PropertyAfter(a: Object, b: Object, name: string)
    requires forall i :: 0 <= i < |a| ==> a[i].0 != name
    ensures Property(a + b, name) == Property(b, name)
  {
    if a == [] {
      assert a + b == b;
    } else {
      assert (a + b)[1..] == a[1..] + b;
      PropertyAfter(a[1..], b, name);
    }
  }

  lemma PropertyOfOptional(name: string, value: Json, rest: Object)
    ensures var o := Optional(name, value) + rest;
      && (Truthy(value) ==> Property(o, name) == value)
      && (!Truthy(value) ==> Property(o, name) == Property(rest, name))
      && (forall other :: other != name ==> Property(o, other) == Property(rest, other))
  {
    assert Truthy(value) ==> (Optional(name, value) + rest)[1..] == rest;
    assert !Truthy(value) ==> Optional(name, value) + rest == rest;
  }

  lemma PropertyOfSigning(f: Offer, rest: Object)
    requires Property(rest, "vk") == Undefined && Property(rest, "sig") == Undefined
    ensures var signed := Truthy(f.signingKey) && Truthy(f.signature);
      var o := SigningFields(f) + rest;
      && Property(o, "vk") == (if signed then f.signingKey else Undefined)
      && Property(o, "sig") == (if signed then f.signature else Undefined)
  {
    if Truthy(f.signingKey) && Truthy(f.signature) {
      var o := [("vk", f.signingKey), ("sig", f.signature)] + rest;
      assert o[0] == ("vk", f.signingKey) && o[1..][0] == ("sig", f.signature);
    } else {
      assert [] + rest == rest;
    }
  }

  /** A complete offer decodes exactly while its timestamp is acceptable; what comes back is what went in. */
  lemma OfferRoundTrip(f: Offer, now: int)
    requires Truthy(f.sdp) && Truthy(f.publicKey) && Truthy(f.sessionId) && Truthy(f.createdAt)
    ensures var res := DecodeOffer(EncodeOffer(f), now);
      && (res.Ok? <==> ValidTimestamp(f.createdAt, now) && !PastExpiry(f.createdAt, now))
      && (!(f.createdAt.Num? && 0 < f.createdAt.n <= now + 30000) ==> res == Err(BadTimestamp))
      && (f.createdAt.Num? && 0 < f.createdAt.n < now - 300000 ==> res == Err(TooOld))
      && (res.Ok? ==>
            && res.value.sdp == f.sdp && res.value.publicKey == f.publicKey
            && res.value.sessionId == f.sessionId && res.value.createdAt == f.createdAt
            && res.value.cipherText == (if Truthy(f.cipherText) then f.cipherText else Null)
            && (Truthy(f.signingKey) && Truthy(f.signature) ==>
                  res.value.signingKey == f.signingKey && res.value.signature == f.signature)
            && (!(Truthy(f.signingKey) && Truthy(f.signature)) ==>
                  res.value.signingKey == res.value.signature == Null)
            && (Truthy(f.ratchetKey) ==> res.value.ratchetKey == f.ratchetKey)
            && (!Truthy(f.ratchetKey) ==> res.value.ratchetKey == Null))
  {
    var o := OfferFields(f);
    OfferFieldsRead(f);
    OfferFieldsDistinct(f);
    StringifyKeepsProperties(o, "s");
    StringifyKeepsProperties(o, "k");
    StringifyKeepsProperties(o, "i");
    StringifyKeepsProperties(o, "t");
    StringifyKeepsProperties(o, "c");
    StringifyKeepsProperties(o, "vk");
    StringifyKeepsProperties(o, "sig");
    StringifyKeepsProperties(o, "rp");
  }

  /** A code that lacks a required property, whatever else it holds, is refused before anything else is looked at. */
  lemma IncompleteCodes(o: Object, now: int)
    ensures Property(o, "s").Undefined? || Property(o, "k").Undefined? || Property(o, "i").Undefined? ==>
      DecodeOffer(Code(o), now) == Err(MissingFields) && DecodeAnswer(Code(o), now) == Err(MissingFields)
    ensures Property(o, "t").Undefined? ==> DecodeOffer(Code(o), now) == Err(MissingFields)
    ensures DecodeOffer(Garbled, now) == Err(Undecodable) && DecodeAnswer(Garbled, now) == Err(Undecodable)
    ensures forall id :: ReadReconnect(Garbled, id) == Err(Undecodable)
  {
  }

  /** An answer without a time stamp never ages. */
  lemma TimelessAnswer(sdp: Json, publicKey: Json, sessionId: Json, now: int)
    requires Truthy(sdp) && Truthy(publicKey) && Truthy(sessionId)
    ensures DecodeAnswer(Code([("s", sdp), ("k", publicKey), ("i", sessionId)]), now) ==
            Ok(Answer(sdp, publicKey, sessionId, Null, Null))
  {
    var o := [("s", sdp), ("k", publicKey), ("i", sessionId)];
    PropertyAt(o, 0);
    PropertyAt(o, 1);
    PropertyAt(o, 2);
    AbsentProperty(o, "t");
    AbsentProperty(o, "c");
    AbsentProperty(o, "rp");
  }

  /**
    For a signed invite that still decodes, the guest recomputes exactly the bytes the host signed, except for
    a ratchet key that is falsy without being null or absent: that one is signed but never sent.
  */
  lemma DecodedBytesAreTheSignedOnes(f: Offer, now: int)
    requires Truthy(f.sdp) && Truthy(f.publicKey) && Truthy(f.sessionId) && Truthy(f.createdAt)
    requires Truthy(f.signingKey) && Truthy(f.signature)
    requires DecodeOffer(EncodeOffer(f), now).Ok?
    ensures CanonicalBytes(DecodeOffer(EncodeOffer(f), now).value) == CanonicalBytes(f)
            <==> Truthy(f.ratchetKey) || Nullish(f.ratchetKey)
  {
    OfferRoundTrip(f, now);
    CanonicalBytesCoverAll(DecodeOffer(EncodeOffer(f), now).value, f);
  }

  // ---- Signatures ----

  /** Symbolic ECDSA: a signature verifies for the message and key it was made with. */
  predicate Verifies(message: Object, signature: Json, signingKey: Json) {
    signature.Signature? && signature.message == message && signingKey == Jwk(signature.signer)
  }

  /** The check joinSession makes before anything else. */
  function CheckSignature(f: Offer): Result<Offer> {
    if Truthy(f.signingKey) then
      if !Truthy(f.signature) then Err(SignatureMissing)
      else if !Verifies(CanonicalBytes(f), f.signature, f.signingKey) then Err(SignatureInvalid)
      else Ok(f)
    else Ok(f)
  }

  /**
    An invite that names the host's signing key and passes the check carries the six fields the host signed,
    whatever happened to the code on the way, as long as the host signed nothing else with that key.
  */
  lemma AcceptedInviteIsTheHosts(code: Code, now: int, signed: Offer, signer: KeyId)
    requires DecodeOffer(code, now).Ok?
    requires var f := DecodeOffer(code, now).value;
      && f.signingKey == Jwk(signer)
      && (f.signature.Signature? && f.signature.signer == signer ==> f.signature.message == CanonicalBytes(signed))
      && CheckSignature(f).Ok?
    ensures SameSignedFields(DecodeOffer(code, now).value, signed)
  {
    CanonicalBytesCoverAll(DecodeOffer(code, now).value, signed);
  }

  // ---- Answer codes ----

  function AnswerFields(a: Answer, now: int): Object {
    Head(a.sdp, a.publicKey, a.sessionId, Num(now))
    + Optional("c", a.cipherText)
    + Optional("rp", a.ratchetKey)
  }

  function EncodeAnswer(a: Answer, now: int): Code {
    Code(Stringify(AnswerFields(a, now)))
  }

  /** Unlike an offer, an answer may come without a timestamp. */
  function DecodeAnswer(code: Code, now: int): Result<Answer> {
    if code.Garbled? then Err(Undecodable)
    else
      var o := code.payload;
      var t := Property(o, "t");
      if !Truthy(Property(o, "s")) || !Truthy(Property(o, "k")) || !Truthy(Property(o, "i")) then Err(MissingFields)
      else if !t.Undefined? && !ValidTimestamp(t, now) then Err(BadTimestamp)
      else if !t.Undefined? && PastExpiry(t, now) then Err(TooOld)
      else Ok(Answer(Property(o, "s"), Property(o, "k"), Property(o, "i"), OrNull(Property(o, "c")),
                     OrNull(Property(o, "rp"))))
  }

  lemma AnswerFieldsRead(a: Answer, made: int)
    ensures var o := AnswerFields(a, made);
      && DistinctNames(o)
      && Property(o, "s") == a.sdp && Property(o, "k") == a.publicKey
      && Property(o, "i") == a.sessionId && Property(o, "t") == Num(made)
      && Property(o, "c") == (if Truthy(a.cipherText) then a.cipherText else Undefined)
      && Property(o, "rp") == (if Truthy(a.ratchetKey) then a.ratchetKey else Undefined)
  {
    var o := AnswerFields(a, made);
    var head := Head(a.sdp, a.publicKey, a.sessionId, Num(made));
    var last := Optional("rp", a.ratchetKey);
    assert forall i :: 0 <= i < 4 ==> o[i] == head[i];
    assert o == head + (Optional("c", a.cipherText) + last);
    HeadRead(a.sdp, a.publicKey, a.sessionId, Num(made), Optional("c", a.cipherText) + last);
    PropertyOfOptional("c", a.cipherText, last);
  }

  /** An answer decodes for five minutes (and, with clocks apart, from 30 s before it was made). */
  lemma AnswerRoundTrip(a: Answer, made: int, now: int)
    requires Truthy(a.sdp) && Truthy(a.publicKey) && Truthy(a.sessionId)
    requires Truthy(a.cipherText) || a.cipherText == Null
    requires Truthy(a.ratchetKey) || a.ratchetKey == Null
    ensures DecodeAnswer(EncodeAnswer(a, made), now) ==
              if !(0 < made <= now + CLOCK_SKEW_MS) then Err(BadTimestamp)
              else if now - made > SESSION_EXPIRY_MS then Err(TooOld)
              else Ok(a)
  {
    var o := AnswerFields(a, made);
    AnswerFieldsRead(a, made);
    StringifyKeepsProperties(o, "s");
    StringifyKeepsProperties(o, "k");
    StringifyKeepsProperties(o, "i");
    StringifyKeepsProperties(o, "t");
    StringifyKeepsProperties(o, "c");
    StringifyKeepsProperties(o, "rp");
  }

  // ---- Reconnect codes ----

  function ReconnectOffer(sdp: Json, sessionId: Json): Object {
    [("s", sdp), ("i", sessionId), ("r", Bool(true))]
  }

  function ReconnectAnswer(sdp: Json, sessionId: Json, cipherText: Json): Object {
    ReconnectOffer(sdp, sessionId) + [("c", cipherText)]
  }

  /** What a peer reads from a reconnect code for its session: the SDP and, in an answer, the cipher text. */
  function ReadReconnect(code: Code, sessionId: Json): Result<(Json, Json)> {
    if code.Garbled? then Err(Undecodable)
    else if Property(code.payload, "i") != sessionId then Err(WrongSession)
    else Ok((Property(code.payload, "s"), Property(code.payload, "c")))
  }

  /** Both reconnect codes are marked as such, read back as they were made, and by no other session. */
  lemma ReconnectRoundTrip(sdp: Json, sessionId: Json, cipherText: Json, reader: Json)
    ensures ReadReconnect(Code(Stringify(ReconnectOffer(sdp, sessionId))), reader) ==
            if reader == sessionId then Ok((sdp, Undefined)) else Err(WrongSession)
    ensures ReadReconnect(Code(Stringify(ReconnectAnswer(sdp, sessionId, cipherText))), reader) ==
            if reader == sessionId then Ok((sdp, cipherText)) else Err(WrongSession)
    ensures Property(Stringify(ReconnectOffer(sdp, sessionId)), "r") == Bool(true)
    ensures Property(Stringify(ReconnectAnswer(sdp, sessionId, cipherText)), "r") == Bool(true)
  {
    var o, a := ReconnectOffer(sdp, sessionId), ReconnectAnswer(sdp, sessionId, cipherText);
    StringifyKeepsProperties(o, "s");
    StringifyKeepsProperties(o, "i");
    StringifyKeepsProperties(o, "c");
    StringifyKeepsProperties(a, "s");
    StringifyKeepsProperties(a, "i");
    StringifyKeepsProperties(a, "c");
    AbsentProperty(o, "c");
    PropertyAt(o, 0);
    PropertyAt(o, 1);
    PropertyAt(a, 0);
    PropertyAt(a, 1);
    PropertyAt(a, 2);
    PropertyAt(a, 3);
    PropertyAt(o, 2);
    StringifyKeepsProperties(o, "r");
    StringifyKeepsProperties(a, "r");
  }
}
