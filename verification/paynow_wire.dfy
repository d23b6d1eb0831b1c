/** What travels on the wire between the Paynow proxies and the Paynow
    gateway: the outgoing field record, the exact string the SHA-512 digest
    is taken of, the url-encoded form, and the permissive line-based
    `key=value` reply parser both proxies share. */
module PaynowWire {
  import opened Wrappers
  import opened Text

  // ---------------------------------------------------------------------
  // Reply parser
  // ---------------------------------------------------------------------

  /** The parsed reply: trimmed key to trimmed value. */
  type Fields = map<string, string>

  /** One reply line: split on every '=', keep the first two pieces (the
      key, and the value up to any second '='), keep the entry only when
      both untrimmed pieces are non-empty, and trim both. */
  function ParseLine(line: string): Option<(string, string)> {
    var pieces := Split(line, '=');
    if |pieces| >= 2 && pieces[0] != "" && pieces[1] != "" then
      Some((Trim(pieces[0]), Trim(pieces[1])))
    else None
  }

  /** Index of the first occurrence of c in s, or |s| when there is none. */
  function IndexOf(s: string, c: char): (i: nat)
    ensures i <= |s|
    ensures c !in s[..i]
    ensures i < |s| ==> s[i] == c
    decreases |s|
  {
    if |s| == 0 || s[0] == c then 0
    else
      var i := 1 + IndexOf(s[1..], c);
      assert s[..i] == [s[0]] + s[1..][..i - 1];
      i
  }

  /** A reading of one reply line by character positions, independent of
      Split: the key ends at the first '=', the value ends at the next '='
      or at the end of the line. */
  function LineByIndex(line: string): Option<(string, string)> {
    var eq := IndexOf(line, '=');
    if eq == |line| then None
    else
      var key := line[..eq];
      var after := line[eq + 1..];
      var value := after[..IndexOf(after, '=')];
      if key != "" && value != "" then Some((Trim(key), Trim(value))) else None
  }

  /** The first piece of a split is the text before the first separator,
      and the remaining pieces split what follows it. */
  lemma SplitAtIndexOf(s: string, c: char)
    ensures Split(s, c)[0] == s[..IndexOf(s, c)]
    ensures IndexOf(s, c) == |s| <==> |Split(s, c)| == 1
    ensures IndexOf(s, c) < |s| ==> Split(s, c)[1..] == Split(s[IndexOf(s, c) + 1..], c)
  {
    var i := IndexOf(s, c);
    if i == |s| {
      assert s[..i] == s;
      SplitNoSeparator(s, c);
    } else {
      assert s == s[..i] + [c] + s[i + 1..];
      SplitAtFirst(s[..i], c, s[i + 1..]);
    }
  }

  /** The split-based parser agrees with the position-based reading on every line. */
  lemma ParseLineByIndex(line: string)
    ensures ParseLine(line) == LineByIndex(line)
  {
    SplitAtIndexOf(line, '=');
    var eq := IndexOf(line, '=');
    if eq < |line| {
      SplitAtIndexOf(line[eq + 1..], '=');
    }
  }

  /** A well-formed entry line `key=value`, optionally followed by a
      further '=' and anything, yields (trim(key), trim(value)): anything
      from a second '=' on is cut off the value. */
  lemma ParseEntryLine(key: string, value: string, rest: string)
    requires key != "" && value != ""
    requires '=' !in key && '=' !in value
    requires rest == "" || rest[0] == '='
    ensures ParseLine(key + "=" + value + rest) == Some((Trim(key), Trim(value)))
  {
    var line := key + "=" + value + rest;
    assert line == key + ['='] + (value + rest);
    SplitAtFirst(key, '=', value + rest);
    if rest == "" {
      assert value + rest == value;
      SplitNoSeparator(value, '=');
    } else {
      assert value + rest == value + ['='] + rest[1..];
      SplitAtFirst(value, '=', rest[1..]);
    }
  }

  /** Lines the parser skips: a line without '=', a line with nothing before
      its first '=', and a line with nothing between its first '=' and the
      next one or the end. */
  lemma SkippedLines(line: string)
    ensures '=' !in line ==> ParseLine(line).None?
    ensures |line| > 0 && line[0] == '=' ==> ParseLine(line).None?
    ensures |line| > 0 && line[|line| - 1] == '=' && '=' !in line[..|line| - 1] ==> ParseLine(line).None?
  {
    ParseLineByIndex(line);
    if '=' !in line {
      assert IndexOf(line, '=') == |line|;
    }
    if |line| > 0 && line[|line| - 1] == '=' && '=' !in line[..|line| - 1] {
      assert IndexOf(line, '=') == |line| - 1;
    }
  }

  /** The entry of a line, if any, is for key k. */
  predicate HasKey(entry: Option<(string, string)>, k: string) {
    entry.Some? && entry.value.0 == k
  }

  /** Collect entries in order into a map, each entry replacing any earlier
      entry for the same key. */
  function Collect(entries: seq<Option<(string, string)>>): Fields
    decreases |entries|
  {
    if |entries| == 0 then map[]
    else
      var earlier := Collect(entries[..|entries| - 1]);
      match entries[|entries| - 1]
      case Some(entry) => earlier[entry.0 := entry.1]
      case None => earlier
  }

  /** A key is collected exactly when some entry is for it. */
  lemma {:induction false} CollectKeys(entries: seq<Option<(string, string)>>)
    ensures forall k :: k in Collect(entries) <==> exists i :: 0 <= i < |entries| && HasKey(entries[i], k)
    decreases |entries|
  {
    if |entries| > 0 {
      var n := |entries| - 1;
      var init := entries[..n];
      CollectKeys(init);
      forall k
        ensures k in Collect(entries) <==> exists i :: 0 <= i < |entries| && HasKey(entries[i], k)
      {
        if k in Collect(init) {
          var i :| 0 <= i < n && HasKey(init[i], k);
          assert HasKey(entries[i], k);
        }
        if exists i :: 0 <= i < |entries| && HasKey(entries[i], k) {
          var i :| 0 <= i < |entries| && HasKey(entries[i], k);
          if i < n {
            assert HasKey(init[i], k);
          }
        }
      }
    }
  }

  /** The value collected for a key comes from the last entry for it. */
  lemma {:induction false} CollectLastWins(entries: seq<Option<(string, string)>>)
    ensures forall k :: k in Collect(entries) ==>
      exists i :: 0 <= i < |entries| && entries[i] == Some((k, Collect(entries)[k]))
        && (forall j :: i < j < |entries| ==> !HasKey(entries[j], k))
    decreases |entries|
  {
    if |entries| > 0 {
      var n := |entries| - 1;
      var init := entries[..n];
      var fields := Collect(entries);
      CollectLastWins(init);
      forall k | k in fields
        ensures exists i :: (0 <= i < |entries| && entries[i] == Some((k, fields[k]))
          && (forall j :: i < j < |entries| ==> !HasKey(entries[j], k)))
      {
        if HasKey(entries[n], k) {
          assert entries[n] == Some((k, fields[k]));
        } else {
          var i :| 0 <= i < n && init[i] == Some((k, Collect(init)[k]))
            && (forall j :: i < j < n ==> !HasKey(init[j], k));
          assert entries[i] == Some((k, fields[k]));
          forall j | i < j < |entries| ensures !HasKey(entries[j], k) {
            if j < n {
              assert !HasKey(init[j], k);
            }
          }
        }
      }
    }
  }

  /** The entry of every line, in order. */
  function Entries(lines: seq<string>): (entries: seq<Option<(string, string)>>)
    ensures |entries| == |lines|
  {
    seq(|lines|, i requires 0 <= i < |lines| => ParseLine(lines[i]))
  }

  /** Parse lines in order: the entry of each line replaces any earlier
      entry for the same key. */
  function ParseLines(lines: seq<string>): Fields {
    Collect(Entries(lines))
  }

  /** `fields[key]`, undefined when the key is absent. */
  function Lookup(fields: Fields, key: string): Option<string> {
    if key in fields then Some(fields[key]) else None
  }

  /** The whole reply body: its '\n'-separated lines. */
  function ParseReply(text: string): Fields {
    ParseLines(Split(text, '\n'))
  }

  /** A key is in the parsed lines exactly when some line yields an entry for it. */
  lemma ParseLinesKeys(lines: seq<string>)
    ensures forall k :: k in ParseLines(lines) <==> exists i :: 0 <= i < |lines| && HasKey(ParseLine(lines[i]), k)
  {
    var entries := Entries(lines);
    CollectKeys(entries);
    assert forall i :: 0 <= i < |lines| ==> entries[i] == ParseLine(lines[i]);
  }

  /** The value of a key in the parsed lines is the one from the last line
      that yields an entry for that key: later duplicates overwrite earlier ones. */
  lemma ParseLinesLastWins(lines: seq<string>)
    ensures forall k :: k in ParseLines(lines) ==>
      exists i :: 0 <= i < |lines| && ParseLine(lines[i]) == Some((k, ParseLines(lines)[k]))
        && (forall j :: i < j < |lines| ==> !HasKey(ParseLine(lines[j]), k))
  {
    var entries := Entries(lines);
    var fields := ParseLines(lines);
    CollectLastWins(entries);
    forall k | k in fields
      ensures exists i :: (0 <= i < |lines| && ParseLine(lines[i]) == Some((k, fields[k]))
        && (forall j :: i < j < |lines| ==> !HasKey(ParseLine(lines[j]), k)))
    {
      var i :| 0 <= i < |entries| && entries[i] == Some((k, fields[k]))
        && (forall j :: i < j < |entries| ==> !HasKey(entries[j], k));
      assert ParseLine(lines[i]) == Some((k, fields[k]));
      forall j | i < j < |lines| ensures !HasKey(ParseLine(lines[j]), k) {
        assert entries[j] == ParseLine(lines[j]);
      }
    }
  }

  // ---------------------------------------------------------------------
  // Outgoing record, digest input and form
  // ---------------------------------------------------------------------

  /** The record sent to Paynow, before the hash is added. `id` is the
      configured integration id, which may be unset. */
  datatype OutgoingRecord = OutgoingRecord(
    id: Option<string>,
    reference: string,
    amount: string,
    email: string,
    phone: string,
    payMethod: string,
    returnUrl: string,
    resultUrl: string)

  /** The values fed to the digest, in order. An unset id joins as the empty string. */
  function HashValues(rec: OutgoingRecord): seq<string> {
    [rec.id.GetOr(""), rec.reference, rec.amount, rec.email, rec.phone,
     rec.payMethod, rec.returnUrl, rec.resultUrl]
  }

  /** The string whose SHA-512 digest is the hash: the values joined with no
      separator, followed immediately by the integration key. */
  function HashInput(rec: OutgoingRecord, integrationKey: string): string {
    Join(HashValues(rec), "") + integrationKey
  }

  /** A form: field names and values, in the order they are appended. */
  type Form = seq<(string, string)>

  const FormKeys: seq<string> :=
    ["id", "reference", "amount", "email", "phone", "method", "returnurl", "resulturl", "hash"]

  /** The record followed by its hash, in the order its fields were defined. */
  function SignedForm(rec: OutgoingRecord, integrationKey: string, digest: string -> string): Form {
    [("id", Str(rec.id)), ("reference", rec.reference), ("amount", rec.amount),
     ("email", rec.email), ("phone", rec.phone), ("method", rec.payMethod),
     ("returnurl", rec.returnUrl), ("resulturl", rec.resultUrl),
     ("hash", digest(HashInput(rec, integrationKey)))]
  }

  function Keys(form: Form): seq<string> {
    seq(|form|, i requires 0 <= i < |form| => form[i].0)
  }

  /** The digest input is the eight record values concatenated in form order,
      then the key: no separator anywhere, and the hash field itself is not
      part of it. */
  lemma HashInputLayout(rec: OutgoingRecord, integrationKey: string)
    ensures HashInput(rec, integrationKey)
      == rec.id.GetOr("") + rec.reference + rec.amount + rec.email + rec.phone
         + rec.payMethod + rec.returnUrl + rec.resultUrl + integrationKey
  {
    var v := HashValues(rec);
    var tail := Join(v[4..], "");
    HashTail(v[4..]);
    assert v[4..] == [rec.phone, rec.payMethod, rec.returnUrl, rec.resultUrl];
    HashHead(v, tail);
  }

  /** The last four digest values joined. */
  lemma HashTail(v: seq<string>)
    requires |v| == 4
    ensures Join(v, "") == v[0] + v[1] + v[2] + v[3]
  {
    JoinNoSeparator(v);
    JoinNoSeparator(v[1..]);
    JoinNoSeparator(v[2..]);
    assert v[1..][1..] == v[2..] && v[2..][1..] == v[3..];
  }

  /** The first four digest values followed by the join of the rest. */
  lemma HashHead(v: seq<string>, tail: string)
    requires |v| == 8 && Join(v[4..], "") == tail
    ensures Join(v, "") == v[0] + v[1] + v[2] + v[3] + tail
  {
    JoinNoSeparator(v);
    JoinNoSeparator(v[1..]);
    JoinNoSeparator(v[2..]);
    JoinNoSeparator(v[3..]);
    assert v[1..][1..] == v[2..] && v[2..][1..] == v[3..] && v[3..][1..] == v[4..];
  }

  /** With no separator, a join is the first part followed by the join of the rest. */
  lemma JoinNoSeparator(parts: seq<string>)
    requires |parts| >= 1
    ensures Join(parts, "") == parts[0] + Join(parts[1..], "")
  {
  }

  /** The signed form lists exactly the nine fields in order; its first eight
      values are the record's (an unset id is sent as "undefined"), and the
      last is the digest of the other values, with an unset id contributing
      nothing, followed by the key. */
  lemma SignedFormLayout(rec: OutgoingRecord, integrationKey: string, digest: string -> string)
    ensures Keys(SignedForm(rec, integrationKey, digest)) == FormKeys
    ensures var form := SignedForm(rec, integrationKey, digest);
      && form[0].1 == Str(rec.id)
      && (forall i :: 1 <= i < 8 ==> form[i].1 == HashValues(rec)[i])
      && form[8].1 == digest(rec.id.GetOr("") + form[1].1 + form[2].1 + form[3].1
           + form[4].1 + form[5].1 + form[6].1 + form[7].1 + integrationKey)
  {
    HashInputLayout(rec, integrationKey);
  }

  /** Joining with no separator, split around one position. */
  lemma {:induction false} JoinAround(values: seq<string>, i: nat)
    requires i < |values|
    ensures Join(values, "") == Join(values[..i], "") + values[i] + Join(values[i + 1..], "")
    decreases i
  {
    if i == 0 {
      if |values| > 1 {
        assert values[1..] == values[i + 1..];
      }
    } else {
      JoinAround(values[1..], i - 1);
      assert values[1..][..i - 1] == values[1..i];
      assert values[1..][i..] == values[i + 1..];
      assert values[..i] == [values[0]] + values[1..i];
      if i > 1 {
        assert values[..i][1..] == values[1..i];
      }
    }
  }

  /** Two records that differ in exactly one digest value have different
      digest inputs. */
  lemma OneFieldChangesInput(a: OutgoingRecord, b: OutgoingRecord, i: nat, integrationKey: string)
    requires i < 8
    requires HashValues(a)[i] != HashValues(b)[i]
    requires forall j :: 0 <= j < 8 && j != i ==> HashValues(a)[j] == HashValues(b)[j]
    ensures HashInput(a, integrationKey) != HashInput(b, integrationKey)
  {
    var va, vb := HashValues(a), HashValues(b);
    JoinAround(va, i);
    JoinAround(vb, i);
    assert va[..i] == vb[..i];
    assert va[i + 1..] == vb[i + 1..];
    var pre := Join(va[..i], "");
    var post := Join(va[i + 1..], "") + integrationKey;
    assert HashInput(a, integrationKey) == pre + va[i] + post;
    assert HashInput(b, integrationKey) == pre + vb[i] + post;
    if |va[i]| == |vb[i]| {
      var k :| 0 <= k < |va[i]| && va[i][k] != vb[i][k];
      assert (pre + va[i] + post)[|pre| + k] == va[i][k];
      assert (pre + vb[i] + post)[|pre| + k] == vb[i][k];
    } else {
      assert |pre + va[i] + post| != |pre + vb[i] + post|;
    }
  }

  /** Without separators the field boundaries are not recoverable: moving
      the last character of the email to the front of the phone gives a
      different record with the same digest input, so the same hash. */
  lemma BoundaryAmbiguity(a: OutgoingRecord, integrationKey: string)
    requires |a.email| > 0
    ensures var n := |a.email| - 1;
      var b := a.(email := a.email[..n], phone := [a.email[n]] + a.phone);
      b != a && HashInput(a, integrationKey) == HashInput(b, integrationKey)
  {
    var n := |a.email| - 1;
    var b := a.(email := a.email[..n], phone := [a.email[n]] + a.phone);
    HashInputLayout(a, integrationKey);
    HashInputLayout(b, integrationKey);
    assert a.email == b.email + [a.email[n]];
    assert a.email + a.phone == b.email + b.phone;
    assert |b.email| != |a.email|;
  }
}
