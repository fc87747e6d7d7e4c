/**
 * The contact card: the public part of an identity, written as JSON text into
 * a QR code by the identity store and read back by the QR scanner.
 *
 * `Encode` is the payload `JSON.stringify({id, name, publicKey})` built in
 * `useUserProfile`; `Decode` is the classification done by the scanner's
 * result callback; `Scanner` is that component's visible state (the error
 * text it shows and the calls it makes to `onScan` and `onClose`).
 */
module ContactCard {
  import opened Wrappers
  import opened Json

  /** The three public fields of an identity. */
  datatype Card = Card(id: string, name: string, publicKey: string)

  /** The object literal `{id, name, publicKey}`, in that key order. */
  function CardObject(c: Card): (v: Json)
    ensures NumberFree(v)
    ensures v.JObject? && |v.members| == 3
    ensures Property(v, "id") == Some(JString(c.id))
    ensures Property(v, "name") == Some(JString(c.name))
    ensures Property(v, "publicKey") == Some(JString(c.publicKey))
  {
    var members := [("id", JString(c.id)), ("name", JString(c.name)), ("publicKey", JString(c.publicKey))];
    assert members[0].0 == "id" && members[1].0 != "id" && members[2].0 != "id";
    assert members[1].0 == "name" && members[2].0 != "name";
    JObject(members)
  }

  /** The QR payload text; `JSON.parse` gives back exactly the card's object. */
  function Encode(c: Card): (text: string)
    ensures Parse(text) == Some(CardObject(c))
  {
    ParseStringify(CardObject(c));
    Stringify(CardObject(c))
  }

  /** How the scanner's callback classifies a scanned text. */
  datatype ScanOutcome =
    | Accepted(data: Json)  // `onScan(data)` then `onClose()`
    | InvalidFormat         // "Invalid QR code format"
    | ParseFailure          // "Failed to parse QR code"

  /** `data.id && data.name && data.publicKey` on a parsed value other than `null`. */
  predicate HasCardFields(data: Json)
    requires data != JNull
  {
    TruthyProperty(data, "id") && TruthyProperty(data, "name") && TruthyProperty(data, "publicKey")
  }

  /**
   * `JSON.parse` throws on malformed text, and reading `.id` of a parsed
   * `null` throws inside the same `try`: both are parse failures. Any other
   * value is accepted exactly when its three fields are truthy.
   */
  function Decode(text: string): (r: ScanOutcome)
    ensures r == ParseFailure <==> Parse(text) == None || Parse(text) == Some(JNull)
    ensures r.Accepted? <==> exists data :: Parse(text) == Some(data) && data != JNull && HasCardFields(data)
    ensures r.Accepted? ==> Parse(text) == Some(r.data)
  {
    match Parse(text)
    case None => ParseFailure
    case Some(data) =>
      if data == JNull then ParseFailure
      else if HasCardFields(data) then Accepted(data)
      else InvalidFormat
  }

  /** Decoding an encoded card gives back its three fields, when none of them is empty. */
  lemma DecodeEncode(c: Card)
    requires c.id != "" && c.name != "" && c.publicKey != ""
    ensures Decode(Encode(c)).Accepted?
    ensures var data := Decode(Encode(c)).data;
            Property(data, "id") == Some(JString(c.id))
            && Property(data, "name") == Some(JString(c.name))
            && Property(data, "publicKey") == Some(JString(c.publicKey))
  {
    assert HasCardFields(CardObject(c));
  }

  /** An encoded card is accepted if and only if none of its fields is empty. */
  lemma EncodedCardAccepted(c: Card)
    ensures Decode(Encode(c)).Accepted? <==> c.id != "" && c.name != "" && c.publicKey != ""
    ensures !Decode(Encode(c)).Accepted? ==> Decode(Encode(c)) == InvalidFormat
  {
    var v := CardObject(c);
    assert HasCardFields(v) <==> c.id != "" && c.name != "" && c.publicKey != "";
  }

  /** Any text `JSON.parse` rejects, `not json` for one, is reported as a parse failure. */
  lemma NotJsonIsParseFailure(text: string)
    requires Parse(text) == None
    ensures Decode(text) == ParseFailure
    ensures Parse("not json") == None
  {
  }

  /** JSON `null` is a parse failure too, since `null.id` throws. */
  lemma NullIsParseFailure()
    ensures Decode("null") == ParseFailure
  {
    assert ParseValue("null") == Some(Parsed(JNull, ""));
  }

  /**
   * A parsed object without an `id`, `name` or `publicKey` member is an
   * invalid format, not a parse failure; `{"id":"x"}` is one.
   */
  lemma MissingFieldsIsInvalidFormat(text: string, data: Json, key: string)
    requires Parse(text) == Some(data) && data.JObject?
    requires key in {"id", "name", "publicKey"}
    requires Lookup(data.members, key) == None
    ensures Decode(text) == InvalidFormat
    ensures Parse("{\"id\":\"x\"}") == Some(JObject([("id", JString("x"))]))
  {
    var v := JObject([("id", JString("x"))]);
    ParseStringify(v);
    assert Stringify(v) == "{\"id\":\"x\"}";
  }

  /**
   * A parsed object whose `id`, `name` or `publicKey` is falsy (`""`, `0`,
   * `-0`, a number that rounds to zero such as `1e-400`, `false` or `null`)
   * is an invalid format, whatever the other fields hold.
   */
  lemma FalsyFieldIsInvalidFormat(text: string, data: Json, key: string, falsy: Json)
    requires Parse(text) == Some(data) && data.JObject?
    requires key in {"id", "name", "publicKey"}
    requires falsy in {JString(""), JNumber("0"), JNumber("-0"), JNumber("1e-400"), JBool(false), JNull}
    requires Lookup(data.members, key) == Some(falsy)
    ensures Decode(text) == InvalidFormat
  {
    ZeroLexemes();
    TinyNumberIsFalsy();
    assert !Truthy(falsy);
  }

  // ---------------------------------------------------------------------
  // The scanner component's visible effects

  const InvalidFormatMessage: string := "Invalid QR code format"
  const ParseFailureMessage: string := "Failed to parse QR code"
  const CameraFailureMessage: string := "Failed to access camera"

  /** A call the scanner makes to its parent. */
  datatype ScanEvent = OnScan(data: Json) | OnClose

  /** The text `setError` receives for a rejected scan. */
  function ErrorMessage(r: ScanOutcome): (m: Option<string>)
    ensures m.None? <==> r.Accepted?
    ensures m.Some? ==> m.value != CameraFailureMessage
    ensures r == InvalidFormat ==> m == Some(InvalidFormatMessage)
    ensures r == ParseFailure ==> m == Some(ParseFailureMessage)
  {
    match r
    case Accepted(_) => None
    case InvalidFormat => Some(InvalidFormatMessage)
    case ParseFailure => Some(ParseFailureMessage)
  }

  class Scanner {
    /** The `error` state shown over the video. */
    var error: string
    /** The calls made to `onScan` and `onClose`, in order. */
    var events: seq<ScanEvent>

    constructor ()
      ensures error == "" && events == []
    {
      error := "";
      events := [];
    }

    /**
     * The result callback for one recognised code. `onScan` and `onClose` are
     * called inside the same `try` as the parse: `scanThrows` and
     * `closeThrows` say whether each of them throws. A throw ends the calls
     * and sets the parse-failure message.
     */
    method OnResult(text: string, scanThrows: bool, closeThrows: bool)
      modifies this
      ensures Decode(text).Accepted? && !scanThrows && !closeThrows ==>
        events == old(events) + [OnScan(Decode(text).data), OnClose] && error == old(error)
      ensures Decode(text).Accepted? && scanThrows ==>
        events == old(events) + [OnScan(Decode(text).data)] && error == ParseFailureMessage
      ensures Decode(text).Accepted? && !scanThrows && closeThrows ==>
        events == old(events) + [OnScan(Decode(text).data), OnClose] && error == ParseFailureMessage
      ensures !Decode(text).Accepted? ==>
        events == old(events) && error == ErrorMessage(Decode(text)).value
    {
      var outcome := Decode(text);
      match outcome
      case Accepted(data) =>
        events := events + [OnScan(data)];
        if scanThrows {
          error := ParseFailureMessage;
          return;
        }
        events := events + [OnClose];
        if closeThrows {
          error := ParseFailureMessage;
        }
      case InvalidFormat =>
        error := InvalidFormatMessage;
      case ParseFailure =>
        error := ParseFailureMessage;
    }

    /** The camera could not be started (`scanner.start()` rejected). */
    method OnCameraFailure()
      modifies this
      ensures error == CameraFailureMessage && events == old(events)
    {
      error := CameraFailureMessage;
    }
  }
}
