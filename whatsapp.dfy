/**
 * `WhatsappClient`: the message payload sent through Twilio's WhatsApp API
 * and the result shape of sending it. The Twilio call is a parameter.
 */
module Whatsapp {
  import opened Wrappers
  import opened Text
  import opened JsonData

  /** The `person` keyword argument: a user with a name and a phone number. */
  datatype Person = Person(name: string, phoneNumber: string)

  /** The payload of `process_payload`. */
  datatype Payload = Payload(sender: string, body: string, recipient: string)

  /** `s.replace(c, "")`. */
  function Remove(s: string, c: char): (r: string)
    ensures c !in r
    ensures |r| == |s| - Count(s, c)
    ensures c !in s ==> r == s
  {
    if s == [] then [] else (if s[0] == c then [] else [s[0]]) + Remove(s[1..], c)
  }

  /** Removing every `c` is splitting on `c` and joining the pieces with nothing between them. */
  lemma {:induction false} RemoveIsSplitJoin(s: string, c: char)
    ensures Remove(s, c) == Join(Split(s, c), "")
  {
    if s != [] {
      var rest := Split(s[1..], c);
      RemoveIsSplitJoin(s[1..], c);
      if s[0] == c {
        assert Split(s, c) == [""] + rest;
        assert Join([""] + rest, "") == "" + "" + Join(rest, "");
      } else {
        JoinFront(s[0], rest);
        assert Split(s, c) == [[s[0]] + rest[0]] + rest[1..];
      }
    }
  }

  /** Putting a character in front of the first piece puts it in front of the joined text. */
  lemma {:induction false} JoinFront(x: char, pieces: seq<string>)
    requires |pieces| >= 1
    ensures Join([[x] + pieces[0]] + pieces[1..], "") == [x] + Join(pieces, "")
  {
    var p := [[x] + pieces[0]] + pieces[1..];
    if |pieces| > 1 {
      assert p[1..] == pieces[1..];
    }
  }

  /** `process_payload(template_name, body_values, person=..., phone=...)`. */
  function ProcessPayload(whatsappNumber: string, bodyValues: map<string, Json>, person: Option<Person>, phone: Option<Json>): (p: Payload)
    ensures p.sender == "whatsapp: " + whatsappNumber
    ensures p.body == "Hello " + (if person.Some? then person.value.name else "") + ", your OTP is: "
      + PyStr(if "number" in bodyValues then bodyValues["number"] else JNull) + ". It is valid for 60 seconds."
    ensures person.Some? ==> '+' !in p.recipient && p.recipient == Join(Split(person.value.phoneNumber, '+'), "")
    ensures person.None? ==> p.recipient == "whatsapp: +91" + PyStr(if phone.Some? then phone.value else JNull)
  {
    var name := if person.Some? then person.value.name else "";
    var recipient :=
      if person.Some? then
        RemoveIsSplitJoin(person.value.phoneNumber, '+');
        Remove(person.value.phoneNumber, '+')
      else "whatsapp: +91" + PyStr(if phone.Some? then phone.value else JNull);
    var number := if "number" in bodyValues then bodyValues["number"] else JNull;
    Payload("whatsapp: " + whatsappNumber, "Hello " + name + ", your OTP is: " + PyStr(number) + ". It is valid for 60 seconds.", recipient)
  }

  /** The OTP text sent without a person: the code as written and no name. */
  lemma OtpBodyWithoutPerson(whatsappNumber: string, code: string, phone: string)
    ensures var p := ProcessPayload(whatsappNumber, map["number" := JStr(code)], None, Some(JStr(phone)));
      && p.body == "Hello , your OTP is: " + code + ". It is valid for 60 seconds."
      && p.recipient == "whatsapp: +91" + phone
  {
  }

  /** `post(data)`: `(True, message)` when the call succeeds, `(False, str(error))` when anything raises. */
  datatype Sent<T> = Sent(ok: bool, message: Option<T>, error: string)

  /**
   * `WhatsappClient.post(data)`. `create` stands for `client.messages.create`
   * on the sender, body and recipient; a missing payload key is a `KeyError`,
   * caught like any other exception, whose text is the quoted key.
   */
  function Post<T>(data: map<string, string>, create: (string, string, string) -> Result<T, string>): (r: Sent<T>)
    ensures r.ok <==> "from_" in data && "body" in data && "to" in data && create(data["from_"], data["body"], data["to"]).Success?
    ensures r.ok ==> r.message == Some(create(data["from_"], data["body"], data["to"]).value)
    ensures !r.ok ==> r.message.None?
  {
    if "from_" !in data then Sent(false, None, "'from_'")
    else if "body" !in data then Sent(false, None, "'body'")
    else if "to" !in data then Sent(false, None, "'to'")
    else
      match create(data["from_"], data["body"], data["to"])
      case Success(m) => Sent(true, Some(m), "")
      case Failure(e) => Sent(false, None, e)
  }

  /** The payload dict `process_payload` returns, keyed as `post` reads it. */
  function PayloadDict(p: Payload): map<string, string>
  {
    map["from_" := p.sender, "body" := p.body, "to" := p.recipient]
  }

  /** Posting a processed payload hands Twilio exactly its sender, body and recipient. */
  lemma PostPayload<T>(p: Payload, create: (string, string, string) -> Result<T, string>)
    ensures Post(PayloadDict(p), create).ok <==> create(p.sender, p.body, p.recipient).Success?
  {
  }
}
