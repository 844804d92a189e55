/** What the client parses out of what the server prints. */
module HttpRoundTrip {
  import opened HttpHeaders

  /** A field the format can carry: no colon or line end in the name, no line end in the value. */
  ghost predicate Sendable(f: Field) {
    ':' !in f.name && '\n' !in f.name && !StartsBlock(f.name) && '\n' !in f.value
  }

  /** Token characters, section 5.6.2 of RFC 9110. */
  predicate IsTokenChar(c: char) {
    '0' <= c <= '9' || 'a' <= c <= 'z' || 'A' <= c <= 'Z' || c in "!#$%&'*+-.^_`|~"
  }

  ghost predicate IsToken(s: string) {
    s != "" && forall i :: 0 <= i < |s| ==> IsTokenChar(s[i])
  }

  /** Tokens are sendable names, and trimmed. */
  lemma TokensAreSendable(f: Field)
    requires f.name == "" || IsToken(f.name)
    requires '\n' !in f.value
    ensures Sendable(f) && Trimmed(f.name)
  {
    forall i | 0 <= i < |f.name|
      ensures f.name[i] != ':' && f.name[i] != '\n' && f.name[i] != '/' && !IsSpace(f.name[i])
    {
      TokenCharsAreOrdinary(f.name[i]);
    }
    BlockChars(f.name);
  }

  lemma TokenCharsAreOrdinary(c: char)
    requires IsTokenChar(c)
    ensures c != ':' && c != '\n' && c != '/' && !IsSpace(c)
  {
  }

  lemma BlockChars(s: string)
    ensures StartsBlock(s) <==> |s| >= 5 && s[0] == 'H' && s[1] == 'T' && s[2] == 'T' && s[3] == 'P' && s[4] == '/'
  {
  }

  // ----- One line

  lemma {:induction false} IndexIs(s: string, c: char, k: nat)
    requires k < |s| && s[k] == c && c !in s[..k]
    ensures IndexOf(s, c) == k
  {
    if k > 0 {
      assert s[..k][0] == s[0];
      assert s[1..][..k - 1] == s[..k][1..];
      IndexIs(s[1..], c, k - 1);
    }
  }

  lemma TrimPadded(before: string, s: string, after: string)
    requires Blank(before) && Blank(after)
    ensures Trim(before + s + after) == Trim(s)
  {
    var b, a := TrimSplits(s);
    Pieces("", before, b, Trim(s), a, after);
    assert before + s + after == (before + b) + Trim(s) + (a + after);
    TrimUnique(before + b, Trim(s), a + after);
  }

  /** A printed field parses to its trimmed self. */
  lemma FieldParses(f: Field)
    requires ':' !in f.name
    ensures FieldOf(FieldLine(f)) == [Field(Trim(f.name), Trim(f.value))]
  {
    var line := FieldLine(f);
    var k := |f.name|;
    assert line[..k] == f.name && line[k] == ':';
    IndexIs(line, ':', k);
    assert line[k + 1..] == " " + f.value + CRLF;
    TrimPadded(" ", f.value, CRLF);
  }

  lemma FieldIsNoStart(f: Field)
    requires ':' !in f.name && !StartsBlock(f.name)
    ensures !StartsBlock(FieldLine(f))
  {
    var line := FieldLine(f);
    BlockChars(line);
    BlockChars(f.name);
    assert line[|f.name|] == ':' && line[..|f.name|] == f.name;
  }

  lemma ReceiveLine(r: Record, text: string, more: string)
    requires '\n' !in text && text != ""
    ensures Receive(r, text + CRLF + more) == Receive(FeedLine(r, text + CRLF), more)
  {
    var stream := text + CRLF + more;
    var k := |text| + 1;
    assert stream[k] == '\n' && stream[..k] == text + "\r";
    IndexIs(stream, '\n', k);
    assert stream[..k + 1] == text + CRLF && stream[k + 1..] == more;
    assert |text + CRLF| > 2;
  }

  lemma ReceiveBlankLine(r: Record, body: string)
    ensures Receive(r, CRLF + body) == (Record(r.headers, r.rawHeaders + CRLF), body)
  {
    var stream := CRLF + body;
    assert stream[1] == '\n' && stream[..1] == "\r";
    IndexIs(stream, '\n', 1);
    assert stream[..2] == CRLF && stream[2..] == body;
    assert CRLF[0] != ':' && CRLF[1] != ':' && CRLF[0] != 'H';
    BlockChars(CRLF);
    assert FieldOf(CRLF) == [] && r.headers + [] == r.headers;
    assert FeedLine(r, CRLF) == Record(r.headers, r.rawHeaders + CRLF);
  }

  // ----- The fields

  /** The named fields as the client records them. */
  ghost function Parsed(headers: seq<Field>): seq<Field> {
    if headers == [] then []
    else (if headers[0].name == "" then [] else [Field(Trim(headers[0].name), Trim(headers[0].value))]) + Parsed(headers[1..])
  }

  ghost function Named(headers: seq<Field>): seq<Field> {
    if headers == [] then []
    else (if headers[0].name == "" then [] else [headers[0]]) + Named(headers[1..])
  }

  ghost predicate AllSendable(headers: seq<Field>) {
    forall i :: 0 <= i < |headers| && headers[i].name != "" ==> Sendable(headers[i])
  }

  lemma ReceiveField(r: Record, f: Field, more: string)
    requires Sendable(f) && f.name != ""
    ensures Receive(r, FieldLine(f) + more)
         == Receive(Record(r.headers + [Field(Trim(f.name), Trim(f.value))], r.rawHeaders + FieldLine(f)), more)
  {
    var text := f.name + ": " + f.value;
    assert FieldLine(f) == text + CRLF;
    ReceiveLine(r, text, more);
    FieldParses(f);
    FieldIsNoStart(f);
  }

  lemma {:induction false} ReceiveFields(r: Record, headers: seq<Field>, more: string)
    requires AllSendable(headers)
    ensures Receive(r, FieldLines(headers) + more)
         == Receive(Record(r.headers + Parsed(headers), r.rawHeaders + FieldLines(headers)), more)
    decreases |headers|
  {
    if headers == [] {
      assert FieldLines(headers) + more == more;
      assert Record(r.headers + Parsed(headers), r.rawHeaders + FieldLines(headers)) == r;
    } else {
      var f, tail := headers[0], headers[1..];
      assert AllSendable(tail);
      if f.name == "" {
        assert FieldLines(headers) == FieldLines(tail) && Parsed(headers) == Parsed(tail);
        ReceiveFields(r, tail, more);
      } else {
        var one := Field(Trim(f.name), Trim(f.value));
        var next := Record(r.headers + [one], r.rawHeaders + FieldLine(f));
        Assoc(FieldLine(f), FieldLines(tail), more);
        ReceiveField(r, f, FieldLines(tail) + more);
        ReceiveFields(next, tail, more);
        assert r.headers + ([one] + Parsed(tail)) == (r.headers + [one]) + Parsed(tail);
        Assoc(r.rawHeaders, FieldLine(f), FieldLines(tail));
      }
    }
  }

  // ----- The whole response

  lemma DigitsAreTrimmed(s: string)
    requires IsDigits(s)
    ensures Trim(s) == s && '\n' !in s && ':' !in s
  {
  }

  lemma AddedIsItself(body: string, headers: seq<Field>)
    ensures AllSendable(AddedFields(body, headers))
    ensures Parsed(AddedFields(body, headers)) == AddedFields(body, headers)
  {
    var f := Field(CONTENT_LENGTH, Decimal(|body|));
    DecimalParses(|body|);
    DigitsAreTrimmed(Decimal(|body|));
    assert IsToken(f.name);
    TokensAreSendable(f);
    assert Trim(f.name) == f.name;
    assert [f][1..] == [];
  }

  lemma ReceiveStart(r: Record, reason: string, statusCode: nat, more: string)
    requires '\n' !in reason
    ensures Receive(r, StartLine(reason, statusCode) + more)
         == Receive(Record(FieldOf(StartLine(reason, statusCode)), StartLine(reason, statusCode)), more)
  {
    DecimalParses(statusCode);
    DigitsAreTrimmed(Decimal(statusCode));
    var text := VERSION + StatusLine(reason, statusCode);
    assert '\n' !in text;
    ReceiveLine(r, text, more);
    var start := StartLine(reason, statusCode);
    assert start == text + CRLF;
    assert start[..5] == VERSION[..5] == "HTTP/";
    assert StartsBlock(start);
    assert [] + FieldOf(start) == FieldOf(start) && "" + start == start;
  }

  /** The fields a response is recorded with. */
  ghost function Recorded(reason: string, statusCode: nat, body: string, headers: seq<Field>): seq<Field> {
    FieldOf(StartLine(reason, statusCode)) + Parsed(headers) + AddedFields(body, headers)
  }

  /** Whatever was recorded before, the client is left with the named fields of this response, trimmed and
      in order, a length of the body when the caller gave none, the head verbatim, and the body to come. */
  lemma HeaderRoundTrip(r: Record, reason: string, statusCode: nat, body: string, headers: seq<Field>)
    requires '\n' !in reason && AllSendable(headers)
    ensures Receive(r, Head(reason, statusCode, body, headers) + body)
         == (Record(Recorded(reason, statusCode, body, headers), Head(reason, statusCode, body, headers)), body)
  {
    var start, fields := StartLine(reason, statusCode), FieldLines(headers);
    var extra := FieldLines(AddedFields(body, headers));
    HeadShape(start, fields, extra, body);
    ReceiveStart(r, reason, statusCode, fields + (extra + (CRLF + body)));
    ReceiveRest(Record(FieldOf(start), start), body, headers);
  }

  lemma HeadShape(start: string, fields: string, extra: string, body: string)
    ensures (start + (fields + (extra + CRLF))) + body == start + (fields + (extra + (CRLF + body)))
    ensures ((start + fields) + extra) + CRLF == start + (fields + (extra + CRLF))
  {
    Assoc(start, fields + (extra + CRLF), body);
    Assoc(fields, extra + CRLF, body);
    Assoc(extra, CRLF, body);
    Assoc(start + fields, extra, CRLF);
    Assoc(start, fields, extra + CRLF);
  }

  lemma ReceiveRest(r: Record, body: string, headers: seq<Field>)
    requires AllSendable(headers)
    ensures var fields, added := FieldLines(headers), AddedFields(body, headers);
            Receive(r, fields + (FieldLines(added) + (CRLF + body)))
            == (Record((r.headers + Parsed(headers)) + added, ((r.rawHeaders + fields) + FieldLines(added)) + CRLF), body)
  {
    var fields, added := FieldLines(headers), AddedFields(body, headers);
    ReceiveFields(r, headers, FieldLines(added) + (CRLF + body));
    var r2 := Record(r.headers + Parsed(headers), r.rawHeaders + fields);
    AddedIsItself(body, headers);
    ReceiveFields(r2, added, CRLF + body);
    ReceiveBlankLine(Record(r2.headers + added, r2.rawHeaders + FieldLines(added)), body);
  }

  lemma TrimIsIdentity(s: string)
    ensures Trim(s) == s <==> Trimmed(s)
  {
    var before, after := TrimSplits(s);
  }

  ghost predicate AllTrimmed(headers: seq<Field>) {
    forall i :: 0 <= i < |headers| && headers[i].name != "" ==> Trimmed(headers[i].name) && Trimmed(headers[i].value)
  }

  lemma {:induction false} ParsedIsNamed(headers: seq<Field>)
    ensures |Parsed(headers)| == |Named(headers)|
    ensures Parsed(headers) == Named(headers) <==> AllTrimmed(headers)
  {
    if headers != [] {
      var f, tail := headers[0], headers[1..];
      ParsedIsNamed(tail);
      TrimIsIdentity(f.name);
      TrimIsIdentity(f.value);
      AllTrimmedSplits(headers);
      if f.name == "" {
        assert Parsed(headers) == Parsed(tail) && Named(headers) == Named(tail);
      } else {
        var one := Field(Trim(f.name), Trim(f.value));
        assert Parsed(headers) == [one] + Parsed(tail) && Named(headers) == [f] + Named(tail);
        ConsEqual(one, Parsed(tail), f, Named(tail));
      }
    }
  }

  lemma ConsEqual<T>(a: T, s: seq<T>, b: T, t: seq<T>)
    ensures [a] + s == [b] + t <==> a == b && s == t
  {
    assert ([a] + s)[0] == a && ([b] + t)[0] == b;
    assert ([a] + s)[1..] == s && ([b] + t)[1..] == t;
  }

  lemma AllTrimmedSplits(headers: seq<Field>)
    requires headers != []
    ensures AllTrimmed(headers) <==> AllTrimmed(headers[..1]) && AllTrimmed(headers[1..])
    ensures AllTrimmed(headers[..1]) <==> headers[0].name == "" || (Trimmed(headers[0].name) && Trimmed(headers[0].value))
  {
    var one, tail := headers[..1], headers[1..];
    assert one[0] == headers[0];
    assert forall i :: 1 <= i < |headers| ==> headers[i] == tail[i - 1];
    if AllTrimmed(one) && AllTrimmed(tail) {
      forall i | 0 <= i < |headers| && headers[i].name != ""
        ensures Trimmed(headers[i].name) && Trimmed(headers[i].value)
      {
        assert i > 0 ==> headers[i] == tail[i - 1];
      }
    }
    if AllTrimmed(headers) {
      assert forall i :: 0 <= i < |tail| ==> tail[i] == headers[i + 1];
    }
  }

  /** The named fields come back unchanged, with at most the body's length added, exactly when they were
      trimmed and the library's text for the code has no colon. */
  lemma ExactRoundTrip(reason: string, statusCode: nat, body: string, headers: seq<Field>)
    ensures Recorded(reason, statusCode, body, headers) == Named(headers) + AddedFields(body, headers)
       <==> ':' !in reason && AllTrimmed(headers)
  {
    ParsedIsNamed(headers);
    StartParses(reason, statusCode);
    var s, p, n, a := FieldOf(StartLine(reason, statusCode)), Parsed(headers), Named(headers), AddedFields(body, headers);
    SameSuffix(s + p, n, a);
    if ':' !in reason {
      assert s + p == p;
    }
  }

  lemma SameSuffix<T>(s: seq<T>, t: seq<T>, a: seq<T>)
    ensures s + a == t + a <==> s == t
  {
    if s + a == t + a {
      assert |s + a| == |t + a|;
      assert (s + a)[..|s|] == s && (t + a)[..|t|] == t;
    }
  }

  lemma StartParses(reason: string, statusCode: nat)
    ensures |FieldOf(StartLine(reason, statusCode))| == if ':' in reason then 1 else 0
  {
    DecimalParses(statusCode);
    DigitsAreTrimmed(Decimal(statusCode));
    var line := StartLine(reason, statusCode);
    var text := StatusLine(reason, statusCode);
    var k := IndexOf(line, ':');
    assert ':' !in VERSION && ':' !in CRLF;
    assert ':' in line <==> ':' in reason;
    assert line[..|line|] == line;
  }

  // ----- Looking a field up

  lemma {:induction false} LookupFinds(headers: seq<Field>, more: seq<Field>, name: string)
    ensures Lookup(headers + more, name) == if HasHeader(headers, name) then Lookup(headers, name) else Lookup(more, name)
  {
    if headers == [] {
      assert headers + more == more;
    } else {
      var tail := headers[1..];
      assert (headers + more)[1..] == tail + more;
      LookupFinds(tail, more, name);
      HasHeaderSplits(headers, name);
    }
  }

  lemma HasHeaderSplits(headers: seq<Field>, name: string)
    requires headers != []
    ensures HasHeader(headers, name) <==> SameName(headers[0].name, name) || HasHeader(headers[1..], name)
  {
    var tail := headers[1..];
    assert forall i :: 0 <= i < |tail| ==> tail[i] == headers[i + 1];
    assert forall i :: 1 <= i < |headers| ==> headers[i] == tail[i - 1];
  }

  lemma {:induction false} LookupParsed(headers: seq<Field>, name: string)
    requires name != "" && forall i :: 0 <= i < |headers| ==> Trimmed(headers[i].name)
    ensures Lookup(Parsed(headers), name) == Trim(Lookup(headers, name))
    ensures HasHeader(Parsed(headers), name) <==> HasHeader(headers, name)
  {
    if headers != [] {
      var f, tail := headers[0], headers[1..];
      LookupParsed(tail, name);
      HasHeaderSplits(headers, name);
      TrimIsIdentity(f.name);
      if f.name == "" {
        assert |Lowered(f.name)| != |Lowered(name)|;
        assert Parsed(headers) == Parsed(tail);
      } else {
        assert Parsed(headers)[1..] == Parsed(tail);
        HasHeaderSplits(Parsed(headers), name);
      }
    }
  }

  /** What the client's lookup answers, in whichever case it asks: the caller's first value of that name,
      and the length of the body if the caller set none. */
  lemma LookupRoundTrip(reason: string, statusCode: nat, body: string, headers: seq<Field>, name: string)
    requires name != "" && ':' !in reason && forall i :: 0 <= i < |headers| ==> Trimmed(headers[i].name)
    ensures var found := Lookup(Recorded(reason, statusCode, body, headers), name);
            if HasHeader(headers, name) then found == Trim(Lookup(headers, name))
            else if SameName(name, CONTENT_LENGTH) then IsDigits(found) && ParseDecimal(found) == |body|
            else found == ""
  {
    StartParses(reason, statusCode);
    var p, a := Parsed(headers), AddedFields(body, headers);
    assert FieldOf(StartLine(reason, statusCode)) + p == p;
    LookupFinds(p, a, name);
    LookupParsed(headers, name);
    DecimalParses(|body|);
    if !HasHeader(headers, name) {
      LengthIsAdded(body, headers, name);
    }
  }

  lemma LengthIsAdded(body: string, headers: seq<Field>, name: string)
    requires !HasHeader(headers, name)
    ensures Lookup(AddedFields(body, headers), name) == if SameName(name, CONTENT_LENGTH) then Decimal(|body|) else ""
  {
    var f := Field(CONTENT_LENGTH, Decimal(|body|));
    assert [f][1..] == [];
    assert SameName(name, CONTENT_LENGTH) ==> forall i :: 0 <= i < |headers| ==> !SameName(headers[i].name, CONTENT_LENGTH);
  }
}
