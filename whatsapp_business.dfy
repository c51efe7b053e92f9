/**
 * The Meta WhatsApp Business channel: extracting the incoming message from a webhook
 * payload, the webhook subscription handshake, the payload signature check and the
 * capping of interactive reply buttons. Payloads are JSON values; Python's behaviour on
 * values of an unexpected shape (a failed lookup, index or conversion raises) is kept,
 * and every such exception makes the extraction yield no message.
 */
module WhatsAppBusiness {
  import opened Wrappers
  import opened Text

  /** A decoded JSON value (numbers are integers). */
  datatype Json =
    | JNull
    | JBool(b: bool)
    | JInt(i: int)
    | JStr(s: string)
    | JArr(items: seq<Json>)
    | JObj(fields: map<string, Json>)

  /** A Python exception raised while reading the payload. */
  datatype Raised = Raised

  type Py<T> = Result<T, Raised>

  /** `v.get(key, default)`: only a dictionary has `get`. */
  function Get(v: Json, key: string, default: Json): Py<Json> {
    match v
    case JObj(m) => Success(if key in m then m[key] else default)
    case _ => Failure(Raised)
  }

  /** `v[0]`: the first element of a list, the first character of a string. */
  function First(v: Json): Py<Json> {
    match v
    case JArr(xs) => if xs == [] then Failure(Raised) else Success(xs[0])
    case JStr(s) => if s == [] then Failure(Raised) else Success(JStr([s[0]]))
    case _ => Failure(Raised)
  }

  /** `v[key]` for a string key: only a dictionary holding the key answers. */
  function Index(v: Json, key: string): Py<Json> {
    match v
    case JObj(m) => if key in m then Success(m[key]) else Failure(Raised)
    case _ => Failure(Raised)
  }

  /** `key in v`: a key of a dictionary, an element of a list, a substring of a string. */
  function Has(v: Json, key: string): Py<bool> {
    match v
    case JObj(m) => Success(key in m)
    case JArr(xs) => Success(JStr(key) in xs)
    case JStr(s) => Success(Contains(s, key))
    case _ => Failure(Raised)
  }

  /** Python truthiness. */
  predicate Truthy(v: Json) {
    match v
    case JNull => false
    case JBool(b) => b
    case JInt(i) => i != 0
    case JStr(s) => s != []
    case JArr(xs) => xs != []
    case JObj(m) => m != map[]
  }

  function DigitValue(c: char): int {
    c as int - '0' as int
  }

  predicate AllDigits(s: string) {
    forall i :: 0 <= i < |s| ==> '0' <= s[i] <= '9'
  }

  /** The value of a string of decimal digits. */
  function DigitsValue(s: string): (n: nat)
    requires AllDigits(s)
    decreases |s|
  {
    if s == [] then 0 else DigitsValue(s[..|s| - 1]) * 10 + DigitValue(s[|s| - 1])
  }

  /** `int(v)`: an integer as it is, a boolean as 0 or 1, a string holding an optionally
      signed numeral of ASCII digits (surrounding blanks allowed); null, lists, objects and
      every other string raise. Python also accepts other strings, such as numerals of
      non-ASCII decimal digits or with underscores. */
  function ToInt(v: Json): (r: Py<int>)
    ensures v.JInt? ==> r == Success(v.i)
    ensures v.JNull? || v.JArr? || v.JObj? ==> r.Failure?
  {
    match v
    case JInt(i) => Success(i)
    case JBool(b) => Success(if b then 1 else 0)
    case JStr(s) =>
      var t := Strip(s);
      var neg := t != [] && t[0] == '-';
      var digits := if t != [] && (t[0] == '-' || t[0] == '+') then t[1..] else t;
      if digits == [] || !AllDigits(digits) then Failure(Raised)
      else
        var n: int := DigitsValue(digits);
        Success(if neg then -n else n)
    case _ => Failure(Raised)
  }

  /** `WhatsAppMessage`; the fields the payload supplies keep their JSON values. */
  datatype WhatsAppMessage = WhatsAppMessage(
    chatId: Json,
    sender: Json,
    senderName: Json,
    content: Json,
    timestamp: int,
    messageType: Json)

  const EmptyObj: Json := JObj(map[])

  /** The content of a message of the given type: the text body of a text message, the
      id of the button or else the list reply of an interactive one, "" for any other. */
  function ContentOf(msg: Json, msgType: Json): Py<Json> {
    if msgType == JStr("text") then
      var text :- Get(msg, "text", EmptyObj);
      Get(text, "body", JStr(""))
    else if msgType == JStr("interactive") then
      var interactive :- Get(msg, "interactive", EmptyObj);
      var hasButton :- Has(interactive, "button_reply");
      if hasButton then
        var reply :- Index(interactive, "button_reply");
        Get(reply, "id", JStr(""))
      else
        var hasList :- Has(interactive, "list_reply");
        if hasList then
          var reply :- Index(interactive, "list_reply");
          Get(reply, "id", JStr(""))
        else Success(JStr(""))
    else Success(JStr(""))
  }

  /** The body of `from_webhook` inside its `try`: Success(None) for the early return,
      Failure when some step raises. */
  function Parse(data: Json): Py<Option<WhatsAppMessage>> {
    var entries :- Get(data, "entry", JArr([EmptyObj]));
    var entry :- First(entries);
    var changesList :- Get(entry, "changes", JArr([EmptyObj]));
    var changes :- First(changesList);
    var value :- Get(changes, "value", EmptyObj);
    ParseValue(value)
  }

  /** From the change's "value" on: its first message and its first contact. */
  function ParseValue(value: Json): Py<Option<WhatsAppMessage>> {
    var messages :- Get(value, "messages", JArr([]));
    if !Truthy(messages) then Success(None)
    else
      var msg :- First(messages);
      var contacts :- Get(value, "contacts", JArr([EmptyObj]));
      var contact :- if Truthy(contacts) then First(contacts) else Success(EmptyObj);
      var m :- MessageOf(msg, contact);
      Success(Some(m))
  }

  /** The fields of the message built from one message object and one contact object. */
  function MessageOf(msg: Json, contact: Json): Py<WhatsAppMessage> {
    var msgType :- Get(msg, "type", JStr("text"));
    var content :- ContentOf(msg, msgType);
    var from :- Get(msg, "from", JStr(""));
    var profile :- Get(contact, "profile", EmptyObj);
    var name :- Get(profile, "name", JStr("User"));
    var stamp :- Get(msg, "timestamp", JInt(0));
    var timestamp :- ToInt(stamp);
    Success(WhatsAppMessage(from, from, name, content, timestamp, msgType))
  }

  /**
   * `WhatsAppMessage.from_webhook(data)`: the first message of the first change of the
   * first entry, or None when there is none or the payload has an unexpected shape. The
   * chat and the sender are both the message's "from", and a message of a type other
   * than text or interactive has empty content.
   */
  function FromWebhook(data: Json): (r: Option<WhatsAppMessage>)
    ensures r.Some? ==> r.value.chatId == r.value.sender
    ensures r.Some? && r.value.messageType != JStr("text") && r.value.messageType != JStr("interactive") ==>
      r.value.content == JStr("")
  {
    match Parse(data)
    case Success(m) => m
    case Failure(_) => None
  }

  /** The usual payload shape: one entry with one change whose value is the given object. */
  function Envelope(value: map<string, Json>): Json {
    JObj(map["entry" := JArr([JObj(map["changes" := JArr([JObj(map["value" := JObj(value)])])])])])
  }

  /** `data` has a non-empty "entry" list whose first entry has a non-empty "changes" list
      whose first change has "value" `value`; further entries and changes may follow. */
  predicate FirstChangeValue(data: Json, value: Json) {
    && data.JObj? && "entry" in data.fields && data.fields["entry"].JArr? && data.fields["entry"].items != []
    && var entry := data.fields["entry"].items[0];
    && entry.JObj? && "changes" in entry.fields && entry.fields["changes"].JArr? && entry.fields["changes"].items != []
    && var change := entry.fields["changes"].items[0];
    && change.JObj? && "value" in change.fields && change.fields["value"] == value
  }

  /** Only the first change of the first entry is read: its value alone decides the
      outcome, whatever the other entries and changes hold. */
  lemma EnvelopeParse(data: Json, value: Json)
    requires FirstChangeValue(data, value)
    ensures Parse(data) == ParseValue(value)
  {
    var entry := data.fields["entry"].items[0];
    assert First(data.fields["entry"]) == Success(entry);
    assert First(entry.fields["changes"]) == Success(entry.fields["changes"].items[0]);
  }

  /** No message in the first change (the list absent, empty or otherwise falsy) yields None. */
  lemma WebhookWithoutMessages(data: Json, value: map<string, Json>)
    requires FirstChangeValue(data, JObj(value))
    requires "messages" !in value || !Truthy(value["messages"])
    ensures FromWebhook(data) == None
  {
    EnvelopeParse(data, JObj(value));
  }

  /** The first message of the first change is delivered, built with the first contact (an
      empty one when the contact list is absent or empty), whatever messages and contacts
      follow; and None when building it raises. */
  lemma DeliveredMessage(data: Json, value: map<string, Json>, msg: Json, rest: seq<Json>, contact: Json, more: seq<Json>)
    requires FirstChangeValue(data, JObj(value))
    requires "messages" in value && value["messages"] == JArr([msg] + rest)
    requires || ("contacts" !in value && contact == EmptyObj)
             || ("contacts" in value && value["contacts"] == JArr([]) && contact == EmptyObj)
             || ("contacts" in value && value["contacts"] == JArr([contact] + more))
    ensures FromWebhook(data) ==
      match MessageOf(msg, contact) case Success(m) => Some(m) case Failure(_) => None
  {
    EnvelopeParse(data, JObj(value));
    assert First(value["messages"]) == Success(msg);
  }

  /** A message whose type is neither text nor interactive has empty content. */
  lemma WebhookOtherType(from: string, stamp: int, kind: string)
    requires kind != "text" && kind != "interactive"
    ensures FromWebhook(Envelope(map["messages" := JArr([JObj(map["from" := JStr(from), "timestamp" := JInt(stamp),
                                                                  "type" := JStr(kind)])])])) ==
      Some(WhatsAppMessage(JStr(from), JStr(from), JStr("User"), JStr(""), stamp, JStr(kind)))
  {
    var msg := JObj(map["from" := JStr(from), "timestamp" := JInt(stamp), "type" := JStr(kind)]);
    DeliveredMessage(Envelope(map["messages" := JArr([msg])]), map["messages" := JArr([msg])], msg, [], EmptyObj, []);
    assert Get(msg, "type", JStr("text")) == Success(JStr(kind));
    assert Get(msg, "from", JStr("")) == Success(JStr(from));
    assert Get(msg, "timestamp", JInt(0)) == Success(JInt(stamp));
  }

  /** A text message (the type defaults to text) carries its body; without a contact
      profile the sender's name is "User"; the timestamp is `int()` of the given one
      (for a numeral string, see ToIntDigits). */
  lemma WebhookTextMessage(from: string, body: string, stamp: Json, seconds: int)
    requires ToInt(stamp) == Success(seconds)
    ensures FromWebhook(Envelope(map["messages" := JArr([JObj(map["from" := JStr(from), "timestamp" := stamp,
                                                      "text" := JObj(map["body" := JStr(body)])])])])) ==
      Some(WhatsAppMessage(JStr(from), JStr(from), JStr("User"), JStr(body), seconds, JStr("text")))
  {
    var msg := JObj(map["from" := JStr(from), "timestamp" := stamp, "text" := JObj(map["body" := JStr(body)])]);
    DeliveredMessage(Envelope(map["messages" := JArr([msg])]), map["messages" := JArr([msg])], msg, [], EmptyObj, []);
    assert Get(msg, "type", JStr("text")) == Success(JStr("text"));
    assert Get(msg, "from", JStr("")) == Success(JStr(from));
    assert Get(msg, "timestamp", JInt(0)) == Success(stamp);
    assert ContentOf(msg, JStr("text")) == Success(JStr(body));
  }

  /** `int()` of a numeral string is its value. */
  lemma ToIntDigits(s: string)
    requires s != [] && AllDigits(s)
    ensures ToInt(JStr(s)) == Success(DigitsValue(s))
  {
    assert '0' <= s[0] <= '9' && '0' <= s[|s| - 1] <= '9';
    StripTrimmed(s);
  }

  /** An interactive message object with the given "interactive" part. */
  function InteractiveMsg(interactive: map<string, Json>): Json {
    JObj(map["type" := JStr("interactive"), "interactive" := JObj(interactive)])
  }

  /** A value holding one interactive message and a contact with a profile name. */
  function InteractiveValue(interactive: map<string, Json>, name: string): map<string, Json> {
    map["messages" := JArr([InteractiveMsg(interactive)]),
        "contacts" := JArr([JObj(map["profile" := JObj(map["name" := JStr(name)])])])]
  }

  /** The interactive message is delivered with whatever content its reply part gives. */
  lemma InteractiveMessage(interactive: map<string, Json>, name: string, content: string)
    requires ContentOf(InteractiveMsg(interactive), JStr("interactive")) == Success(JStr(content))
    ensures FromWebhook(Envelope(InteractiveValue(interactive, name))) ==
      Some(WhatsAppMessage(JStr(""), JStr(""), JStr(name), JStr(content), 0, JStr("interactive")))
  {
    var msg := InteractiveMsg(interactive);
    var profile := JObj(map["name" := JStr(name)]);
    var contact := JObj(map["profile" := profile]);
    DeliveredMessage(Envelope(InteractiveValue(interactive, name)), InteractiveValue(interactive, name), msg, [], contact, []);
    assert Get(msg, "type", JStr("text")) == Success(JStr("interactive"));
    assert Get(msg, "from", JStr("")) == Success(JStr(""));
    assert Get(msg, "timestamp", JInt(0)) == Success(JInt(0));
    assert Get(contact, "profile", EmptyObj) == Success(profile);
    assert Get(profile, "name", JStr("User")) == Success(JStr(name));
  }

  /** An interactive message carries the button reply's id, even when a list reply is
      present too; the sender's name comes from the contact profile. */
  lemma WebhookButtonReply(interactive: map<string, Json>, id: string, name: string)
    requires "button_reply" in interactive && interactive["button_reply"] == JObj(map["id" := JStr(id)])
    ensures FromWebhook(Envelope(InteractiveValue(interactive, name))) ==
      Some(WhatsAppMessage(JStr(""), JStr(""), JStr(name), JStr(id), 0, JStr("interactive")))
  {
    InteractiveMessage(interactive, name, id);
  }

  /** Without a button reply, the list reply's id is the content. */
  lemma WebhookListReply(id: string, name: string)
    ensures FromWebhook(Envelope(InteractiveValue(map["list_reply" := JObj(map["id" := JStr(id)])], name))) ==
      Some(WhatsAppMessage(JStr(""), JStr(""), JStr(name), JStr(id), 0, JStr("interactive")))
  {
    InteractiveMessage(map["list_reply" := JObj(map["id" := JStr(id)])], name, id);
  }

  /** With neither reply the content is empty. */
  lemma WebhookNoReply(name: string)
    ensures FromWebhook(Envelope(InteractiveValue(map[], name))) ==
      Some(WhatsAppMessage(JStr(""), JStr(""), JStr(name), JStr(""), 0, JStr("interactive")))
  {
    InteractiveMessage(map[], name, "");
  }

  /** Shapes that raise give no message: a messages value that is a string (its first
      character has no `get`)... */
  lemma WebhookMessagesNotAList()
    ensures FromWebhook(Envelope(map["messages" := JStr("hello")])) == None
  {
    EnvelopeParse(Envelope(map["messages" := JStr("hello")]), JObj(map["messages" := JStr("hello")]));
    assert ParseValue(JObj(map["messages" := JStr("hello")])).Failure?;
  }

  /** ... or a timestamp that `int()` rejects. */
  lemma WebhookBadTimestamp(from: string)
    ensures FromWebhook(Envelope(map["messages" := JArr([JObj(map["from" := JStr(from), "timestamp" := JNull])])])) == None
  {
    var msg := JObj(map["from" := JStr(from), "timestamp" := JNull]);
    EnvelopeParse(Envelope(map["messages" := JArr([msg])]), JObj(map["messages" := JArr([msg])]));
    assert MessageOf(msg, EmptyObj).Failure?;
  }

  /** `verify_webhook(mode, token, challenge)`: the challenge is echoed exactly when the
      mode is "subscribe" and the token is the configured one. */
  function VerifyWebhook(verifyToken: string, mode: string, token: string, challenge: string): (r: Option<string>)
    ensures r.Some? <==> mode == "subscribe" && token == verifyToken
    ensures r.Some? ==> r.value == challenge
  {
    if mode == "subscribe" && token == verifyToken then Some(challenge) else None
  }

  /** The default verify token. */
  const DefaultVerifyToken: string := "pixienews_verify"

  type Bytes = seq<bv8>

  /** HMAC-SHA256 of a payload under a secret, as lower-case hexadecimal. */
  type Hmac = (string, Bytes) -> string

  /** The header prefix `validate_signature` removes. */
  const SignaturePrefix: string := "sha256="

  /** Every character is ASCII. */
  predicate IsAscii(s: string) {
    forall i :: 0 <= i < |s| ==> s[i] as int < 128
  }

  /** `hmac.compare_digest(a, b)` on two strings: equality, but a string holding a
      non-ASCII character raises TypeError. */
  function CompareDigest(a: string, b: string): (r: Py<bool>)
    ensures r.Failure? <==> !IsAscii(a) || !IsAscii(b)
    ensures r.Success? ==> (r.value <==> a == b)
  {
    if IsAscii(a) && IsAscii(b) then Success(a == b) else Failure(Raised)
  }

  /**
   * `validate_signature(payload, signature)`: without a secret (None or empty) every
   * payload passes; otherwise every "sha256=" is removed from the header and what is left
   * is compared with the expected digest, which raises when the header holds a non-ASCII
   * character.
   */
  function ValidateSignature(secret: Option<string>, hmacHex: Hmac, payload: Bytes, signature: string): (r: Py<bool>)
    ensures secret.None? || secret.value == "" ==> r == Success(true)
    ensures secret.Some? && secret.value != "" ==>
      var provided := ReplaceAll(signature, SignaturePrefix, "");
      && (r.Failure? <==> !IsAscii(hmacHex(secret.value, payload)) || !IsAscii(provided))
      && (r.Success? ==> (r.value <==> provided == hmacHex(secret.value, payload)))
  {
    match secret
    case None => Success(true)
    case Some(key) =>
      if key == "" then Success(true)
      else CompareDigest(hmacHex(key, payload), ReplaceAll(signature, SignaturePrefix, ""))
  }

  predicate IsHex(s: string) {
    forall i :: 0 <= i < |s| ==> s[i] in "0123456789abcdef"
  }

  /** Hex digits are ASCII, and none of them is the "s" that starts the prefix. */
  lemma HexShape(d: string)
    requires IsHex(d)
    ensures IsAscii(d) && 's' !in d
  {
    forall i | 0 <= i < |d| ensures d[i] as int < 128 && d[i] != 's' {
      assert d[i] in "0123456789abcdef";
    }
  }

  /** The header is "sha256=" followed by text without an "s": removing the prefix leaves
      that text. */
  lemma StripSignaturePrefix(d: string)
    requires 's' !in d
    ensures ReplaceAll(SignaturePrefix + d, SignaturePrefix, "") == d
  {
    MissingCharMeansAbsent(d, SignaturePrefix);
    ReplaceAbsent(d, SignaturePrefix, "");
    var s := SignaturePrefix + d;
    assert s[..|SignaturePrefix|] == SignaturePrefix;
    assert s[|SignaturePrefix|..] == d;
  }

  /** The header Meta sends, "sha256=" followed by the hex digest, is accepted; so is the
      bare digest. */
  lemma SignatureAccepted(secret: string, hmacHex: Hmac, payload: Bytes)
    requires secret != "" && IsHex(hmacHex(secret, payload))
    ensures ValidateSignature(Some(secret), hmacHex, payload, SignaturePrefix + hmacHex(secret, payload)) == Success(true)
    ensures ValidateSignature(Some(secret), hmacHex, payload, hmacHex(secret, payload)) == Success(true)
  {
    var d := hmacHex(secret, payload);
    HexShape(d);
    StripSignaturePrefix(d);
    MissingCharMeansAbsent(d, SignaturePrefix);
    ReplaceAbsent(d, SignaturePrefix, "");
  }

  /** With a secret, a header carrying another hex digest is refused. */
  lemma SignatureRejected(secret: string, hmacHex: Hmac, payload: Bytes, other: string)
    requires secret != "" && IsHex(hmacHex(secret, payload)) && IsHex(other) && other != hmacHex(secret, payload)
    ensures ValidateSignature(Some(secret), hmacHex, payload, SignaturePrefix + other) == Success(false)
  {
    HexShape(hmacHex(secret, payload));
    HexShape(other);
    StripSignaturePrefix(other);
  }

  /** With a secret, a header holding a non-ASCII character makes the comparison raise
      instead of refusing the payload. */
  lemma SignatureNonAsciiRaises(secret: string, hmacHex: Hmac, payload: Bytes, other: string)
    requires secret != "" && 's' !in other && !IsAscii(other)
    ensures ValidateSignature(Some(secret), hmacHex, payload, SignaturePrefix + other).Failure?
  {
    StripSignaturePrefix(other);
  }

  /** A reply button as `send_interactive_buttons` sends it. */
  datatype ReplyButton = ReplyButton(id: string, title: string)

  /**
   * The buttons of `send_interactive_buttons`: the first three given, each with its id and
   * its title cut to 20 characters. A button among them without an "id" or "title" raises
   * (the send then reports failure): None.
   */
  function CapButtons(buttons: seq<map<string, string>>): (r: Option<seq<ReplyButton>>)
    ensures r.Some? <==> forall i :: 0 <= i < |buttons| && i < 3 ==> "id" in buttons[i] && "title" in buttons[i]
    ensures r.Some? ==> |r.value| == (if |buttons| < 3 then |buttons| else 3)
    ensures r.Some? ==> forall i :: 0 <= i < |r.value| ==>
      r.value[i].id == buttons[i]["id"] &&
      |r.value[i].title| == (if |buttons[i]["title"]| < 20 then |buttons[i]["title"]| else 20) &&
      StartsWith(buttons[i]["title"], r.value[i].title)
  {
    var firstThree := Take(buttons, 3);
    if forall i :: 0 <= i < |firstThree| ==> "id" in firstThree[i] && "title" in firstThree[i] then
      Some(seq(|firstThree|, i requires 0 <= i < |firstThree| && "id" in firstThree[i] && "title" in firstThree[i] =>
        ReplyButton(firstThree[i]["id"], Take(firstThree[i]["title"], 20))))
    else None
  }
}
