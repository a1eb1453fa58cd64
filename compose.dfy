/**
 * The two messages both handlers build from a submission: the notification
 * to the site owner and the auto-reply to the submitter. The HTML markup and
 * styling are dropped; what is kept is which fixed texts, labelled fields and
 * substituted values each body has, in order. Substituted values are kept
 * as the raw values, since the templates do no escaping.
 */
module Compose {
  import opened JsValue
  import opened Submission

  /** One piece of a template literal: literal text, or a `${…}` substitution. */
  datatype Part = Lit(text: string) | Hole(value: Value)

  /** One line of an email body, without its markup. */
  datatype Line =
    | Text(text: string)                 // fixed heading or paragraph
    | Field(caption: string, value: Value) // "<strong>caption:</strong> ${value}"
    | Content(value: Value)              // a paragraph holding just ${value}
    | Greeting(name: Value)              // "Thank You, ${name}!"
    | ReplyTo(address: Value)            // "Reply to:" and a mailto:${address} link showing ${address}
    | Link(href: string, caption: string) // a fixed hyperlink

  /** The message options handed to `sendMail`. */
  datatype OutboundEmail = OutboundEmail(from: Value, to: Value, subject: seq<Part>, html: seq<Line>)

  const NotificationPrefix := "Portfolio Contact: "
  const AutoReplySubject := "Thank you for reaching out! - Gowtham"
  const ThanksText := "Thank you for reaching out through my portfolio. I've received your message and will get back to you as soon as possible, usually within 24 hours."

  /** The conditional Phone paragraph: present for a truthy phone, the empty string otherwise. */
  function PhoneLine(phone: Value): seq<Line> {
    if Truthy(phone) then [Field("Phone", phone)] else []
  }

  /** The owner notification; `operator` is the configured account address. */
  function Notification(f: Fields, operator: Value): OutboundEmail {
    OutboundEmail(
      operator, operator, [Lit(NotificationPrefix), Hole(f.subject)],
      ContactLines(f) + PhoneLine(f.phone) + MessageLines(f))
  }

  /** The notification's lines before the conditional Phone line. */
  function ContactLines(f: Fields): seq<Line> {
    [Text("New Contact Form Submission"), Text("Contact Information:"),
     Field("Name", f.name), Field("Email", f.email)]
  }

  /** The notification's lines after the conditional Phone line. */
  function MessageLines(f: Fields): seq<Line> {
    [Field("Subject", f.subject), Text("Message:"), Content(f.message), ReplyTo(f.email)]
  }

  /** The acknowledgment sent back to the submitter, signed by the site owner. */
  function AutoReply(f: Fields, operator: Value): OutboundEmail {
    OutboundEmail(
      operator, f.email, [Lit(AutoReplySubject)],
      [Greeting(f.name)] + DetailLines(f) + Signature)
  }

  /** The auto-reply's thanks and the restated message details. */
  function DetailLines(f: Fields): seq<Line> {
    [Text(ThanksText), Text("Your Message Details:"), Field("Subject", f.subject), Content(f.message)]
  }

  /** The site owner's signature block that closes the auto-reply. */
  const Signature: seq<Line> :=
    [Text("Best regards,"), Text("Gowtham V"), Text("Full Stack Developer"),
     Link("https://linkedin.com/in/gowtham-v-cse", "LinkedIn"),
     Link("https://github.com/gowthamvetri", "GitHub"),
     Link("mailto:gowthamvetriii@gmail.com", "Email")]

  /** The values one line substitutes, in order. */
  function Slots(line: Line): seq<Value> {
    match line
    case Text(_) => []
    case Field(_, v) => [v]
    case Content(v) => [v]
    case Greeting(n) => [n]
    case ReplyTo(a) => [a, a]
    case Link(_, _) => []
  }

  /** Every value a body substitutes, in order. */
  function Substitutions(lines: seq<Line>): seq<Value> {
    if lines == [] then [] else Slots(lines[0]) + Substitutions(lines[1..])
  }

  /** The labelled fields of a body, in order. */
  function Labelled(lines: seq<Line>): seq<(string, Value)> {
    if lines == [] then []
    else (if lines[0].Field? then [(lines[0].caption, lines[0].value)] else []) + Labelled(lines[1..])
  }

  /** The values a subject template substitutes, in order. */
  function Holes(subject: seq<Part>): seq<Value> {
    if subject == [] then []
    else (if subject[0].Hole? then [subject[0].value] else []) + Holes(subject[1..])
  }

  /** Every one of the values converts to a string. */
  predicate AllRender(vs: seq<Value>) {
    forall i :: 0 <= i < |vs| ==> Renderable(vs[i])
  }

  /** Building the message evaluates its subject and body templates without throwing. */
  predicate Renders(m: OutboundEmail) {
    AllRender(Holes(m.subject)) && AllRender(Substitutions(m.html))
  }

  /** Building both message objects completes. */
  predicate Composes(f: Fields, operator: Value) {
    Renders(Notification(f, operator)) && Renders(AutoReply(f, operator))
  }

  lemma {:induction false} SubstitutionsAppend(a: seq<Line>, b: seq<Line>)
    ensures Substitutions(a + b) == Substitutions(a) + Substitutions(b)
  {
    if a == [] {
      assert a + b == b;
    } else {
      assert (a + b)[1..] == a[1..] + b;
      SubstitutionsAppend(a[1..], b);
    }
  }

  lemma {:induction false} LabelledAppend(a: seq<Line>, b: seq<Line>)
    ensures Labelled(a + b) == Labelled(a) + Labelled(b)
  {
    if a == [] {
      assert a + b == b;
    } else {
      assert (a + b)[1..] == a[1..] + b;
      LabelledAppend(a[1..], b);
    }
  }

  /** A body of one line substitutes that line's values and has at most its one field. */
  lemma Single(l: Line)
    ensures Substitutions([l]) == Slots(l)
    ensures Labelled([l]) == if l.Field? then [(l.caption, l.value)] else []
  {
    assert [l][1..] == [];
  }

  /** Substitutions and fields of a four-line body. */
  lemma Four(a: Line, b: Line, c: Line, d: Line)
    ensures Substitutions([a, b, c, d]) == Slots(a) + Slots(b) + Slots(c) + Slots(d)
    ensures Labelled([a, b, c, d]) == Labelled([a]) + Labelled([b]) + Labelled([c]) + Labelled([d])
  {
    assert [a, b, c, d] == [a] + [b] + [c] + [d];
    SubstitutionsAppend([a] + [b] + [c], [d]);
    SubstitutionsAppend([a] + [b], [c]);
    SubstitutionsAppend([a], [b]);
    LabelledAppend([a] + [b] + [c], [d]);
    LabelledAppend([a] + [b], [c]);
    LabelledAppend([a], [b]);
    Single(a); Single(b); Single(c); Single(d);
  }

  /**
   * The notification goes from and to the operator address, under the
   * subject "Portfolio Contact: " followed by the submitted subject.
   */
  lemma NotificationAddressing(f: Fields, operator: Value)
    ensures Notification(f, operator).from == operator
    ensures Notification(f, operator).to == operator
    ensures Notification(f, operator).subject == [Lit(NotificationPrefix), Hole(f.subject)]
    ensures Holes(Notification(f, operator).subject) == [f.subject]
  {
    var s := Notification(f, operator).subject;
    assert s[1..] == [Hole(f.subject)];
    assert s[1..][1..] == [];
    assert Holes(s[1..][1..]) == [];
    assert Holes(s[1..]) == [f.subject];
  }

  /**
   * The notification's labelled fields are Name, Email, Subject, with a
   * Phone field between Email and Subject exactly when the phone is truthy
   * (no placeholder otherwise).
   */
  lemma NotificationFields(f: Fields, operator: Value)
    ensures Labelled(Notification(f, operator).html)
         == [("Name", f.name), ("Email", f.email)]
            + (if Truthy(f.phone) then [("Phone", f.phone)] else [])
            + [("Subject", f.subject)]
  {
    NotificationParts(f);
  }

  /**
   * The notification body substitutes name, email, the phone when truthy,
   * subject, message, and the email twice more: as the mailto: target of the
   * reply-to link and as its text.
   */
  lemma NotificationSubstitutions(f: Fields, operator: Value)
    ensures Substitutions(Notification(f, operator).html)
         == [f.name, f.email] + (if Truthy(f.phone) then [f.phone] else [])
            + [f.subject, f.message, f.email, f.email]
    ensures ReplyTo(f.email) in Notification(f, operator).html
    ensures Content(f.message) in Notification(f, operator).html
  {
    NotificationParts(f);
    var html := Notification(f, operator).html;
    assert html[|html| - 1] == ReplyTo(f.email);
    assert html[|html| - 2] == Content(f.message);
  }

  /** The notification body taken apart at the conditional Phone line. */
  lemma NotificationParts(f: Fields)
    ensures Substitutions(ContactLines(f) + PhoneLine(f.phone) + MessageLines(f))
         == [f.name, f.email] + (if Truthy(f.phone) then [f.phone] else [])
            + [f.subject, f.message, f.email, f.email]
    ensures Labelled(ContactLines(f) + PhoneLine(f.phone) + MessageLines(f))
         == [("Name", f.name), ("Email", f.email)]
            + (if Truthy(f.phone) then [("Phone", f.phone)] else [])
            + [("Subject", f.subject)]
  {
    var head, phone, tail := ContactLines(f), PhoneLine(f.phone), MessageLines(f);
    SubstitutionsAppend(head + phone, tail);
    SubstitutionsAppend(head, phone);
    LabelledAppend(head + phone, tail);
    LabelledAppend(head, phone);
    ContactFacts(f);
    MessageFacts(f);
    PhoneFacts(f.phone);
  }

  lemma ContactFacts(f: Fields)
    ensures Substitutions(ContactLines(f)) == [f.name, f.email]
    ensures Labelled(ContactLines(f)) == [("Name", f.name), ("Email", f.email)]
  {
    var h := ContactLines(f);
    assert h == [h[0], h[1], h[2], h[3]];
    Four(h[0], h[1], h[2], h[3]);
    Single(h[0]); Single(h[1]); Single(h[2]); Single(h[3]);
  }

  lemma MessageFacts(f: Fields)
    ensures Substitutions(MessageLines(f)) == [f.subject, f.message, f.email, f.email]
    ensures Labelled(MessageLines(f)) == [("Subject", f.subject)]
  {
    var t := MessageLines(f);
    assert t == [t[0], t[1], t[2], t[3]];
    Four(t[0], t[1], t[2], t[3]);
    Single(t[0]); Single(t[1]); Single(t[2]); Single(t[3]);
  }

  lemma PhoneFacts(phone: Value)
    ensures Substitutions(PhoneLine(phone)) == if Truthy(phone) then [phone] else []
    ensures Labelled(PhoneLine(phone)) == if Truthy(phone) then [("Phone", phone)] else []
  {
    if Truthy(phone) {
      Single(Field("Phone", phone));
    }
  }

  /** Lines of fixed text and fixed links substitute nothing and hold no field. */
  lemma {:induction false} FixedLines(lines: seq<Line>)
    requires forall i :: 0 <= i < |lines| ==> lines[i].Text? || lines[i].Link?
    ensures Substitutions(lines) == [] && Labelled(lines) == []
  {
    if lines != [] {
      FixedLines(lines[1..]);
    }
  }

  lemma DetailFacts(f: Fields)
    ensures Substitutions(DetailLines(f)) == [f.subject, f.message]
    ensures Labelled(DetailLines(f)) == [("Subject", f.subject)]
  {
    var d := DetailLines(f);
    assert d == [d[0], d[1], d[2], d[3]];
    Four(d[0], d[1], d[2], d[3]);
    Single(d[0]); Single(d[1]); Single(d[2]); Single(d[3]);
  }

  /**
   * The auto-reply goes from the operator address to the submitter's email
   * under a fixed subject; it greets by name, restates subject and message,
   * substitutes nothing else (the phone in particular), and ends with the
   * owner's signature links.
   */
  lemma AutoReplyContent(f: Fields, operator: Value)
    ensures AutoReply(f, operator).from == operator
    ensures AutoReply(f, operator).to == f.email
    ensures AutoReply(f, operator).subject == [Lit(AutoReplySubject)]
    ensures Holes(AutoReply(f, operator).subject) == []
    ensures AutoReply(f, operator).html[0] == Greeting(f.name)
    ensures Labelled(AutoReply(f, operator).html) == [("Subject", f.subject)]
    ensures Substitutions(AutoReply(f, operator).html) == [f.name, f.subject, f.message]
    ensures AutoReply(f, operator).html[|AutoReply(f, operator).html| - |Signature|..] == Signature
    ensures forall l :: l in Signature ==> l in AutoReply(f, operator).html
  {
    var g, d := [Greeting(f.name)], DetailLines(f);
    SubstitutionsAppend(g + d, Signature);
    SubstitutionsAppend(g, d);
    LabelledAppend(g + d, Signature);
    LabelledAppend(g, d);
    Single(g[0]);
    DetailFacts(f);
    FixedLines(Signature);
    var s := AutoReply(f, operator).subject;
    assert s[1..] == [];
    EndsWith(g + d, Signature);
  }

  /** A body that ends with some lines holds each of them. */
  lemma EndsWith(a: seq<Line>, b: seq<Line>)
    ensures (a + b)[|a + b| - |b|..] == b
    ensures forall l :: l in b ==> l in a + b
  {
    assert (a + b)[|a|..] == b;
  }

  /**
   * Building the two messages completes exactly when name, email, subject
   * and message each convert to a string, and so does the phone when it is
   * truthy (a falsy phone is never substituted).
   */
  lemma ComposesIff(f: Fields, operator: Value)
    ensures Composes(f, operator)
        <==> Renderable(f.name) && Renderable(f.email) && Renderable(f.subject)
             && Renderable(f.message) && (Truthy(f.phone) ==> Renderable(f.phone))
  {
    NotificationAddressing(f, operator);
    NotificationSubstitutions(f, operator);
    AutoReplyContent(f, operator);
    var p := if Truthy(f.phone) then [f.phone] else [];
    AllRenderAppend([f.name, f.email] + p, [f.subject, f.message, f.email, f.email]);
    AllRenderAppend([f.name, f.email], p);
    AllRenderPair(f.name, f.email);
    AllRenderPair(f.subject, f.message);
    AllRenderPair(f.email, f.email);
    AllRenderPair(f.name, f.subject);
    AllRenderAppend([f.subject, f.message], [f.email, f.email]);
    AllRenderAppend([f.name, f.subject], [f.message]);
    assert [f.subject, f.message, f.email, f.email] == [f.subject, f.message] + [f.email, f.email];
    assert [f.name, f.subject, f.message] == [f.name, f.subject] + [f.message];
    AllRenderOne(f.subject);
    AllRenderOne(f.message);
    AllRenderOne(f.phone);
    assert AllRender([]);
  }

  lemma AllRenderOne(x: Value)
    ensures AllRender([x]) <==> Renderable(x)
  {
    assert [x][0] == x;
  }

  lemma AllRenderPair(x: Value, y: Value)
    ensures AllRender([x, y]) <==> Renderable(x) && Renderable(y)
  {
    assert [x, y][0] == x && [x, y][1] == y;
  }

  lemma AllRenderAppend(a: seq<Value>, b: seq<Value>)
    ensures AllRender(a + b) <==> AllRender(a) && AllRender(b)
  {
    if AllRender(a) && AllRender(b) {
      forall i | 0 <= i < |a + b| ensures Renderable((a + b)[i]) {
        if i < |a| { assert (a + b)[i] == a[i]; } else { assert (a + b)[i] == b[i - |a|]; }
      }
    }
    if AllRender(a + b) {
      forall i | 0 <= i < |b| ensures Renderable(b[i]) {
        assert (a + b)[|a| + i] == b[i];
      }
      forall i | 0 <= i < |a| ensures Renderable(a[i]) {
        assert (a + b)[i] == a[i];
      }
    }
  }
}
