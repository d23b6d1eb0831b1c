/** Worked examples of the payment flow, each proved from the general
    model: a parsed gateway reply, a complete initiation with a declined
    payment, a zero amount, and a polling run that succeeds on its second
    check. */
module Scenarios {
  import opened Wrappers
  import opened Text
  import opened Http
  import opened PaynowWire
  import PaynowInitiate
  import PaynowClient

  /** A `key=value` line of trimmed, '='-free, non-empty pieces parses to
      exactly that entry. */
  lemma EntryLine(key: string, value: string)
    requires key != "" && value != "" && '=' !in key && '=' !in value
    requires Trimmed(key) && Trimmed(value)
    ensures ParseLine(key + "=" + value) == Some((key, value))
  {
    ParseEntryLine(key, value, "");
    assert key + "=" + value + "" == key + "=" + value;
    TrimTrimmed(key);
    TrimTrimmed(value);
  }

  /** Entries that yield nothing add nothing to the collected map. */
  lemma {:induction false} CollectTrailingNone(entries: seq<Option<(string, string)>>, n: nat)
    ensures Collect(entries + seq(n, _ => None)) == Collect(entries)
    decreases n
  {
    if n > 0 {
      var longer := entries + seq(n, _ => None);
      assert longer[..|longer| - 1] == entries + seq(n - 1, _ => None);
      CollectTrailingNone(entries, n - 1);
    } else {
      assert entries + seq(n, _ => None) == entries;
    }
  }

  /** The entries of two entry lines followed by blank lines. */
  lemma TwoEntriesLines(k1: string, v1: string, k2: string, v2: string, blanks: nat)
    requires k1 != "" && v1 != "" && '=' !in k1 && '=' !in v1 && Trimmed(k1) && Trimmed(v1)
    requires k2 != "" && v2 != "" && '=' !in k2 && '=' !in v2 && Trimmed(k2) && Trimmed(v2)
    ensures Entries([k1 + "=" + v1, k2 + "=" + v2] + seq(blanks, _ => ""))
      == [Some((k1, v1)), Some((k2, v2))] + seq(blanks, _ => None)
  {
    var lines := [k1 + "=" + v1, k2 + "=" + v2] + seq(blanks, _ => "");
    var target: seq<Option<(string, string)>> := [Some((k1, v1)), Some((k2, v2))] + seq(blanks, _ => None);
    var entries := Entries(lines);
    forall i | 0 <= i < |lines| ensures entries[i] == target[i] {
      if i == 0 {
        EntryLine(k1, v1);
      } else if i == 1 {
        EntryLine(k2, v2);
      } else {
        assert lines[i] == "" && target[i] == None;
        SkippedLines("");
      }
    }
  }

  /** Two entry lines with distinct keys, then any number of blank lines,
      parse to exactly the two entries. */
  lemma TwoEntriesParse(k1: string, v1: string, k2: string, v2: string, blanks: nat)
    requires k1 != "" && v1 != "" && '=' !in k1 && '=' !in v1 && Trimmed(k1) && Trimmed(v1)
    requires k2 != "" && v2 != "" && '=' !in k2 && '=' !in v2 && Trimmed(k2) && Trimmed(v2)
    requires k1 != k2
    ensures ParseLines([k1 + "=" + v1, k2 + "=" + v2] + seq(blanks, _ => "")) == map[k1 := v1, k2 := v2]
  {
    var two: seq<Option<(string, string)>> := [Some((k1, v1)), Some((k2, v2))];
    TwoEntriesLines(k1, v1, k2, v2, blanks);
    CollectTrailingNone(two, blanks);
    assert two[..1] == [Some((k1, v1))];
    assert [Some((k1, v1))][..0] == [];
    assert Collect(two[..1]) == map[k1 := v1];
    assert Collect(two) == map[k1 := v1][k2 := v2];
  }

  /** The pieces of the example entries are clean: nothing to trim, no '='. */
  lemma EntryPieces(key: string, value: string)
    requires key in {"status", "pollurl", "error"}
    requires value in {"Ok", "https://x", "Error", "Insufficient funds"}
    ensures key != "" && value != "" && '=' !in key && '=' !in value
    ensures Trimmed(key) && Trimmed(value)
  {
  }

  const OkReply := "status=Ok\npollurl=https://x\n\n"
  const OkLines := ["status=Ok", "pollurl=https://x", "", ""]

  lemma OkReplyJoin()
    ensures Join(OkLines, "\n") == OkReply
  {
    assert Join(OkLines[2..], "\n") == "\n";
    assert Join(OkLines[1..], "\n") == "pollurl=https://x" + "\n" + "\n";
  }

  /** The reply's lines: two entries, then two blank lines from the trailing
      newlines. */
  lemma OkReplyLines()
    ensures Split(OkReply, '\n') == OkLines
  {
    OkReplyJoin();
    SplitJoin(OkLines, '\n');
  }

  lemma OkLinesShape()
    ensures OkLines == ["status" + "=" + "Ok", "pollurl" + "=" + "https://x"] + seq(2, _ => "")
  {
    assert "status" + "=" + "Ok" == "status=Ok";
    assert "pollurl" + "=" + "https://x" == "pollurl=https://x";
  }

  /** A reply with two entries and two blank lines parses to exactly the
      two entries. */
  lemma OkReplyParses()
    ensures ParseReply(OkReply) == map["status" := "Ok", "pollurl" := "https://x"]
  {
    OkReplyLines();
    OkLinesShape();
    EntryPieces("status", "Ok");
    EntryPieces("pollurl", "https://x");
    TwoEntriesParse("status", "Ok", "pollurl", "https://x", 2);
  }

  /** A line with an empty value is skipped. */
  lemma EmptyValueSkipped()
    ensures ParseLine("foo=").None?
  {
    SkippedLines("foo=");
  }

  const DeclinedReply := "status=Error\nerror=Insufficient funds"
  const DeclinedLines := ["status=Error", "error=Insufficient funds"]

  lemma DeclinedReplyJoin()
    ensures Join(DeclinedLines, "\n") == DeclinedReply
  {
    assert Join(DeclinedLines[1..], "\n") == "error=Insufficient funds";
  }

  lemma DeclinedReplyLines()
    ensures Split(DeclinedReply, '\n') == DeclinedLines
  {
    DeclinedReplyJoin();
    SplitJoin(DeclinedLines, '\n');
  }

  lemma DeclinedLinesShape()
    ensures DeclinedLines == ["status" + "=" + "Error", "error" + "=" + "Insufficient funds"] + seq(0, _ => "")
  {
    assert "status" + "=" + "Error" == "status=Error";
    assert "error" + "=" + "Insufficient funds" == "error=Insufficient funds";
  }

  /** Paynow's decline parses to its status and error. */
  lemma DeclinedReplyParses()
    ensures ParseReply(DeclinedReply) == map["status" := "Error", "error" := "Insufficient funds"]
  {
    DeclinedReplyLines();
    DeclinedLinesShape();
    EntryPieces("status", "Error");
    EntryPieces("error", "Insufficient funds");
    TwoEntriesParse("status", "Error", "error", "Insufficient funds", 0);
  }

  /** Order ORD-1 for 87.50 paid by EcoCash, with no phone and no URLs. */
  const DeclinedOrder := PaynowInitiate.InitiateRequest(Some("ORD-1"), Some(PaynowInitiate.Number(8750)),
                                                        Some("a@b.com"), None, Some("ecocash"), None, None)

  /** 8750 cents is rendered "87.50". */
  lemma AmountText()
    ensures ToFixed2(8750) == "87.50"
  {
    assert NatToString(87) == "87";
    assert FormatCents(8750) == "87" + "." + "50";
  }

  /** The form sent to Paynow for that order carries the amount as "87.50"
      and ends with the hash field. */
  lemma DeclinedOrderForm(config: PaynowInitiate.PaynowConfig, digest: string -> string, upstream: Result<string>)
    ensures var o := PaynowInitiate.Initiate("POST", Parsed(DeclinedOrder), config, digest, upstream);
      && o.sent.Some?
      && o.sent.value[2] == ("amount", "87.50")
      && o.sent.value[8].0 == "hash"
  {
    PaynowInitiate.SentForm(DeclinedOrder, 8750, config, digest, upstream);
    AmountText();
  }

  /** Paynow's "Insufficient funds" decline of that order comes back as 400
      with that error. */
  lemma DeclinedInitiation(config: PaynowInitiate.PaynowConfig, digest: string -> string)
    ensures PaynowInitiate.Initiate("POST", Parsed(DeclinedOrder), config, digest, Success(DeclinedReply)).reply
      == Reply(400, Json(PaynowInitiate.Declined("Insufficient funds")))
  {
    PaynowInitiate.ReplyMapping(DeclinedOrder, 8750, config, digest, DeclinedReply);
    DeclinedReplyParses();
    assert Lower("Error") != "ok";
  }

  /** The same order with no amount is refused before anything is sent. */
  lemma MissingAmount(config: PaynowInitiate.PaynowConfig, digest: string -> string, upstream: Result<string>)
    ensures var req := PaynowInitiate.InitiateRequest(Some("ORD-1"), None, Some("a@b.com"), None,
                                                      Some("ecocash"), None, None);
      PaynowInitiate.Initiate("POST", Parsed(req), config, digest, upstream)
        == PaynowInitiate.InitiateOutcome(Reply(400, ErrorJson(PaynowInitiate.MissingFields)), None)
  {
  }

  /** A poll URL that reports "Pending" and then "Paid": two status
      requests, five seconds between them, and `onSuccess` fired once. */
  method PendingThenPaid(pollUrl: Option<string>)
    returns (fired: seq<PaynowClient.Callback>, requests: nat, waited: nat)
    ensures fired == [PaynowClient.OnSuccess]
    ensures requests == 2
    ensures waited == PaynowClient.PollInterval
  {
    var replies := [Success(PaynowClient.StatusReply(Some("Pending"))), Success(PaynowClient.StatusReply(Some("Paid")))];
    assert PaynowClient.FirstTerminal(replies) == Some(1);
    assert replies[..1][..0] == [];
    var state;
    state, fired, requests, waited := PaynowClient.RunPolling(pollUrl, replies);
  }
}
