/**
 * What the bot shows of a mailbox and its messages: button labels cut to
 * fit, at most ten message buttons, and a message body cut at 3500
 * characters with a "too long" marker, the passcode being taken from the
 * whole body first.  Lengths count Unicode code points, as Python's `len`.
 */
module Display {
  import opened Common
  import Otp
  import Users

  const MaxBodyLength: int := 3500
  const MaxLabelLength: int := 30
  const LabelKeep: int := 27
  const MaxMessageButtons: int := 10
  const MessageIcon: string := "✉️ "
  const MailboxIcon: string := "📧 "

  /** The marker appended to a cut body, in the user's language. */
  function TooLongMarker(lang: string): string
  {
    if lang == "ar" then "\n\n... (الرسالة طويلة جداً)" else "\n\n... (message too long)"
  }

  /** A message body as shown: cut at 3500 characters, then marked. */
  function TruncateBody(content: string, lang: string): (r: string)
    ensures |content| <= MaxBodyLength ==> r == content
    ensures |content| > MaxBodyLength ==>
              && |r| == MaxBodyLength + |TooLongMarker(lang)|
              && r[..MaxBodyLength] == content[..MaxBodyLength]
              && r[MaxBodyLength..] == TooLongMarker(lang)
    ensures |r| <= MaxBodyLength + |TooLongMarker(lang)|
  {
    if |content| > MaxBodyLength then content[..MaxBodyLength] + TooLongMarker(lang) else content
  }

  /** A button label: up to 30 characters as is, longer ones cut to 27 plus `...`. */
  function ShortLabel(s: string): (r: string)
    ensures |r| <= MaxLabelLength
    ensures |s| <= MaxLabelLength ==> r == s
    ensures |s| > MaxLabelLength ==> |r| == MaxLabelLength && r[..LabelKeep] == s[..LabelKeep] && r[LabelKeep..] == "..."
  {
    if |s| <= MaxLabelLength then s else s[..LabelKeep] + "..."
  }

  /** Cutting a label that already fits changes nothing. */
  lemma ShortLabelIdempotent(s: string)
    ensures ShortLabel(ShortLabel(s)) == ShortLabel(s)
  {
  }

  datatype Button = Button(text: string, callbackData: string)

  /** `msg.get('subject', 'No Subject')`. */
  function SubjectOrDefault(subject: Option<string>): (r: string)
    ensures subject.Some? ==> r == subject.value
    ensures subject.None? ==> r == "No Subject"
  {
    match subject
    case Some(s) => s
    case None => "No Subject"
  }

  function MessageButton(subject: Option<string>, emailIndex: int, i: int): Button
  {
    Button(MessageIcon + ShortLabel(SubjectOrDefault(subject)),
           "msg_" + DecimalString(emailIndex) + "_" + DecimalString(i))
  }

  function MailboxButton(address: string, actionPrefix: string, i: int): Button
  {
    Button(MailboxIcon + ShortLabel(address), actionPrefix + "_" + DecimalString(i))
  }

  /**
   * The message rows of `get_messages_keyboard`: one button per message of
   * `messages[:10]`, in inbox order.
   */
  method MessageButtons(subjects: seq<Option<string>>, emailIndex: int) returns (rows: seq<Button>)
    ensures |rows| == if |subjects| < MaxMessageButtons then |subjects| else MaxMessageButtons
    ensures forall i :: 0 <= i < |rows| ==> rows[i] == MessageButton(subjects[i], emailIndex, i)
    ensures forall i :: 0 <= i < |rows| ==> |rows[i].text| <= |MessageIcon| + MaxLabelLength
  {
    var shown := if |subjects| < MaxMessageButtons then subjects else subjects[..MaxMessageButtons];
    rows := [];
    var i := 0;
    while i < |shown|
      invariant 0 <= i <= |shown|
      invariant |rows| == i
      invariant forall k :: 0 <= k < i ==> rows[k] == MessageButton(shown[k], emailIndex, k)
    {
      rows := rows + [MessageButton(shown[i], emailIndex, i)];
      i := i + 1;
    }
  }

  /** The mailbox rows of `get_email_list_keyboard`: one button per mailbox, in list order. */
  method MailboxButtons(emails: seq<Users.Mailbox>, actionPrefix: string) returns (rows: seq<Button>)
    ensures |rows| == |emails|
    ensures forall i :: 0 <= i < |rows| ==> rows[i] == MailboxButton(emails[i].address, actionPrefix, i)
    ensures forall i :: 0 <= i < |rows| ==> |rows[i].text| <= |MailboxIcon| + MaxLabelLength
  {
    rows := [];
    var i := 0;
    while i < |emails|
      invariant 0 <= i <= |emails|
      invariant |rows| == i
      invariant forall k :: 0 <= k < i ==> rows[k] == MailboxButton(emails[k].address, actionPrefix, k)
    {
      rows := rows + [MailboxButton(emails[i].address, actionPrefix, i)];
      i := i + 1;
    }
  }

  /** A fetched message: its `text` and `intro` members when present. */
  datatype FullMessage = FullMessage(text: Option<string>, intro: Option<string>)

  /** `full_msg.get('text', full_msg.get('intro', 'No content'))`. */
  function MessageContent(m: FullMessage): (r: string)
    ensures m.text.Some? ==> r == m.text.value
    ensures m.text.None? && m.intro.Some? ==> r == m.intro.value
    ensures m.text.None? && m.intro.None? ==> r == "No content"
  {
    match m.text
    case Some(t) => t
    case None => match m.intro case Some(i) => i case None => "No content"
  }

  datatype MessageView = MessageView(otp: Option<string>, body: string)

  /** The passcode and the body shown when a message is opened. */
  function ViewMessage(m: FullMessage, lang: string): (v: MessageView)
    ensures v.otp.Some? ==> Otp.MinDigits <= |v.otp.value| <= Otp.MaxDigits && AllDigits(v.otp.value)
    ensures |v.body| <= MaxBodyLength + |TooLongMarker(lang)|
    ensures |MessageContent(m)| <= MaxBodyLength ==> v.body == MessageContent(m)
    ensures |MessageContent(m)| > MaxBodyLength ==> v.body == MessageContent(m)[..MaxBodyLength] + TooLongMarker(lang)
    ensures v.otp == Otp.ExtractOtp(MessageContent(m))
  {
    var content := MessageContent(m);
    MessageView(Otp.ExtractOtp(content), TruncateBody(content, lang))
  }

  /** The passcode comes from the whole body, so one past the cut is still reported. */
  lemma OtpBeyondCutStillFound(m: FullMessage, lang: string, i: int, j: int)
    requires Otp.MatchesAt(MessageContent(m), i, j) && i >= MaxBodyLength
    requires forall p, q :: 0 <= p < i ==> !Otp.MatchesAt(MessageContent(m), p, q)
    ensures ViewMessage(m, lang).otp == Some(MessageContent(m)[i..j])
  {
    Otp.LeftmostMatchExtracted(MessageContent(m), i, j);
  }
}
