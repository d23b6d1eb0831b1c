/** The WhatsApp widget: the phone-number normaliser applied on every
    keystroke, and the message it opens a chat with or copies — the custom
    text when there is any, else the generated order message, followed by
    the payment link. Opening the chat and the clipboard are left to the
    caller: the functions return the URL or the text. */
module WhatsAppClient {
  import opened Wrappers
  import opened Text
  import PaymentService

  // ---------------------------------------------------------------------
  // formatPhoneNumber
  // ---------------------------------------------------------------------

  /** The characters `[^\d+]` does not remove: ASCII digits and '+'. */
  predicate Kept(c: char) {
    IsDigit(c) || c == '+'
  }

  predicate AllKept(s: string) {
    forall i :: 0 <= i < |s| ==> Kept(s[i])
  }

  /** `value.replace(/[^\d+]/g, '')`: the digits and plus signs of the
      value, in order. */
  function Clean(s: string): (r: string)
    ensures AllKept(r)
    ensures |r| <= |s|
    ensures AllKept(s) ==> r == s
    decreases |s|
  {
    if |s| == 0 then ""
    else if Kept(s[0]) then [s[0]] + Clean(s[1..])
    else Clean(s[1..])
  }

  /** Cleaning keeps a character exactly when it is a digit or '+', so
      cleaning two pieces is cleaning each. */
  lemma {:induction false} CleanConcat(a: string, b: string)
    ensures Clean(a + b) == Clean(a) + Clean(b)
    decreases |a|
  {
    if |a| > 0 {
      assert (a + b)[0] == a[0];
      assert (a + b)[1..] == a[1..] + b;
      CleanConcat(a[1..], b);
    } else {
      assert a + b == b;
    }
  }

  const CountryPrefix := "+263"

  /** `formatPhoneNumber`. */
  function FormatPhone(value: string): (r: string)
    ensures AllKept(r)
  {
    var c := Clean(value);
    if StartsWith(c, "+") then c
    else if StartsWith(c, "0") && |c| <= 10 then CountryPrefix + c[1..]
    else if !StartsWith(c, "263") && |c| <= 9 then CountryPrefix + c
    else if StartsWith(c, "263") then "+" + c
    else if |c| > 10 then "+" + c
    else c
  }

  /** The cases of the normaliser, on the cleaned value c: an international
      number is kept; a local number with its leading zero (at most ten
      characters) gets +263 in place of the zero; a short number gets +263
      in front (so the empty input becomes "+263"); a number starting 263,
      or any longer number, gets a '+'; the one remaining shape — exactly
      ten characters, starting with neither '0' nor "263" — is kept without
      a '+'. */
  lemma FormatPhoneCases(value: string)
    ensures var c := Clean(value); var r := FormatPhone(value);
      && (StartsWith(c, "+") ==> r == c)
      && (!StartsWith(c, "+") && StartsWith(c, "0") && |c| <= 10 ==> r == "+263" + c[1..])
      && (!StartsWith(c, "+") && !StartsWith(c, "0") && !StartsWith(c, "263") && |c| <= 9 ==> r == "+263" + c)
      && (StartsWith(c, "263") ==> r == "+" + c)
      && (!StartsWith(c, "+") && |c| > 10 ==> r == "+" + c)
      && (|c| == 10 && !StartsWith(c, "0") && !StartsWith(c, "263") && !StartsWith(c, "+") ==> r == c)
  {
    var c := Clean(value);
    if StartsWith(c, "263") {
      assert c[0] == '2';
    }
  }

  /** The one normalised shape without '+': ten kept characters, the first
      neither '0' nor '+', not starting 263. */
  predicate BareTen(r: string) {
    |r| == 10 && !StartsWith(r, "+") && !StartsWith(r, "0") && !StartsWith(r, "263")
  }

  /** Every normalised number either starts with '+' or is bare-ten; in
      particular it is never empty. */
  lemma FormatPhoneShape(value: string)
    ensures var r := FormatPhone(value); StartsWith(r, "+") || BareTen(r)
  {
  }

  /** Normalising twice is normalising once: the widget re-applies the
      normaliser on every keystroke without changing a settled number. */
  lemma FormatPhoneIdempotent(value: string)
    ensures FormatPhone(FormatPhone(value)) == FormatPhone(value)
  {
    var r := FormatPhone(value);
    FormatPhoneShape(value);
    assert Clean(r) == r;
  }

  // ---------------------------------------------------------------------
  // Message selection
  // ---------------------------------------------------------------------

  const LinkLabel := "\n\n\U{1F517} Payment Link: "

  /** The widget's inputs: the phone field (the customer's phone, or empty,
      until edited) and the custom message field. */
  datatype Widget = Widget(phone: string, customMessage: string)

  /** The widget as first shown: the customer's phone, when there is one,
      in the phone field, and no custom message. */
  function InitialWidget(customerPhone: Option<string>): (w: Widget)
    ensures w.customMessage == ""
    ensures Truthy(customerPhone) ==> w.phone == customerPhone.value
    ensures AllWhitespace(w.phone) <==> customerPhone.None? || AllWhitespace(customerPhone.value)
  {
    Widget(OrElse(customerPhone, ""), "")
  }

  /** The custom text, trimmed, when it is not blank; else the order
      message. */
  function ChosenText(w: Widget, order: PaymentService.PaymentOrder): (t: string)
    ensures AllWhitespace(w.customMessage) ==> t == PaymentService.OrderMessage(order)
    ensures !AllWhitespace(w.customMessage) ==> t == Trim(w.customMessage) && t != ""
  {
    TrimEmptyIff(w.customMessage);
    if Trim(w.customMessage) != "" then Trim(w.customMessage) else PaymentService.OrderMessage(order)
  }

  /** The text sent or copied: the chosen text, a blank line, and the
      payment link. */
  function Composed(w: Widget, order: PaymentService.PaymentOrder, origin: string): string {
    ChosenText(w, order) + LinkLabel + PaymentService.PaymentLink(origin, order.id, order.amount)
  }

  datatype SendResult = PhoneMissing | ChatOpened(url: string)

  /** `handleSendMessage`: a blank phone field is refused; otherwise the chat
      with the phone field as typed is opened with the composed text. */
  function HandleSend(w: Widget, order: PaymentService.PaymentOrder, origin: string,
                      encode: string -> string): (r: SendResult)
    ensures r.PhoneMissing? <==> AllWhitespace(w.phone)
  {
    TrimEmptyIff(w.phone);
    if Trim(w.phone) == "" then PhoneMissing
    else ChatOpened(PaymentService.ChatUrl(w.phone, Composed(w, order, origin), encode))
  }

  /** `copyMessage`: the composed text, whatever the phone field holds. */
  function CopyMessage(w: Widget, order: PaymentService.PaymentOrder, origin: string): string {
    Composed(w, order, origin)
  }

  /** Sending from the widget as first shown: refused exactly when the
      customer has no phone or only a blank one; otherwise the chat with the
      customer's phone opens with the order message, since no custom text
      has been typed. */
  lemma InitialSend(customerPhone: Option<string>, order: PaymentService.PaymentOrder, origin: string,
                    encode: string -> string)
    ensures var r := HandleSend(InitialWidget(customerPhone), order, origin, encode);
      && (r.PhoneMissing? <==> customerPhone.None? || AllWhitespace(customerPhone.value))
      && (r.ChatOpened? ==> r == ChatOpened(PaymentService.ChatUrl(customerPhone.value,
            PaymentService.OrderMessage(order) + LinkLabel + PaymentService.PaymentLink(origin, order.id, order.amount),
            encode)))
  {
    var w := InitialWidget(customerPhone);
    assert ChosenText(w, order) == PaymentService.OrderMessage(order);
  }

  /** The copied text is the text the chat is opened with. */
  lemma SendAndCopyAgree(w: Widget, order: PaymentService.PaymentOrder, origin: string, encode: string -> string)
    requires !AllWhitespace(w.phone)
    ensures HandleSend(w, order, origin, encode)
      == ChatOpened(PaymentService.ChatUrl(w.phone, CopyMessage(w, order, origin), encode))
  {
  }

  /** The composed text is the chosen text, then a blank line and the
      payment-link label, then the payment link at the very end. */
  lemma ComposedLayout(w: Widget, order: PaymentService.PaymentOrder, origin: string)
    ensures var m := Composed(w, order, origin);
      var chosen := ChosenText(w, order);
      var link := PaymentService.PaymentLink(origin, order.id, order.amount);
      && StartsWith(m, chosen)
      && |m| == |chosen| + |LinkLabel| + |link|
      && m[|chosen|..|chosen| + |LinkLabel|] == LinkLabel
      && m[|m| - |link|..] == link
  {
    ThreePieces(ChosenText(w, order), LinkLabel, PaymentService.PaymentLink(origin, order.id, order.amount));
  }

  /** Each of three concatenated pieces can be read back by position. */
  lemma ThreePieces(a: string, b: string, c: string)
    ensures var m := a + b + c;
      && StartsWith(m, a)
      && |m| == |a| + |b| + |c|
      && m[|a|..|a| + |b|] == b
      && m[|m| - |c|..] == c
  {
    var m := a + b + c;
    assert m[..|a|] == a;
    assert m[|a|..|a| + |b|] == b;
    assert m[|m| - |c|..] == c;
  }

  /** A phone number the normaliser produced is never refused as blank. */
  lemma FormattedPhoneAccepted(value: string, customMessage: string, order: PaymentService.PaymentOrder,
                               origin: string, encode: string -> string)
    ensures HandleSend(Widget(FormatPhone(value), customMessage), order, origin, encode).ChatOpened?
  {
    var r := FormatPhone(value);
    FormatPhoneShape(value);
    assert !IsWhitespace(r[0]) by {
      assert Kept(r[0]);
    }
  }
}
