/** What the printed text and the comparisons come to, character by character: a strict reader of the format,
    and the meaning of the case-insensitive comparison and of trimming. */
module HttpText {
  import opened Wrappers
  import opened HttpHeaders
  import opened HttpRoundTrip

  // ----- Names

  /** The same character, or the two cases of one ASCII letter. */
  predicate SameLetter(c: char, d: char) {
    || c == d
    || ('A' <= c <= 'Z' && d as int == c as int + 32)
    || ('A' <= d <= 'Z' && c as int == d as int + 32)
  }

  ghost predicate SameText(a: string, b: string) {
    |a| == |b| && forall i :: 0 <= i < |a| ==> SameLetter(a[i], b[i])
  }

  lemma LowerMeans(c: char, d: char)
    ensures Lower(c) == Lower(d) <==> SameLetter(c, d)
  {
  }

  /** Names are compared letter by letter, ignoring the case of ASCII letters and nothing else. */
  lemma SameNameMeans(a: string, b: string)
    ensures SameName(a, b) <==> SameText(a, b)
  {
    if SameName(a, b) {
      assert |Lowered(a)| == |Lowered(b)|;
      forall i | 0 <= i < |a| ensures SameLetter(a[i], b[i]) {
        assert Lowered(a)[i] == Lowered(b)[i];
        LowerMeans(a[i], b[i]);
      }
    }
    if SameText(a, b) {
      forall i | 0 <= i < |a| ensures Lowered(a)[i] == Lowered(b)[i] {
        assert SameLetter(a[i], b[i]);
        LowerMeans(a[i], b[i]);
      }
      assert Lowered(a) == Lowered(b);
    }
  }

  /** A lookup answers with the first field of that name, in whichever case, and with nothing if there is
      none. */
  lemma {:induction false} LookupIsFirst(headers: seq<Field>, name: string) returns (k: nat)
    ensures k <= |headers| && forall i :: 0 <= i < k ==> !SameText(headers[i].name, name)
    ensures if k < |headers| then SameText(headers[k].name, name) && Lookup(headers, name) == headers[k].value
            else Lookup(headers, name) == ""
  {
    if headers == [] {
      k := 0;
    } else {
      SameNameMeans(headers[0].name, name);
      if SameText(headers[0].name, name) {
        k := 0;
      } else {
        k := LookupIsFirst(headers[1..], name);
        k := k + 1;
      }
    }
  }

  ghost predicate GivesLength(headers: seq<Field>) {
    exists i :: 0 <= i < |headers| && SameText(headers[i].name, "Content-Length")
  }

  /** The length is added exactly when no field of the caller is called Content-Length, in whichever case. */
  lemma LengthIsAddedOnce(body: string, headers: seq<Field>)
    ensures GivesLength(headers) ==> AddedFields(body, headers) == []
    ensures !GivesLength(headers) ==>
              var added := AddedFields(body, headers);
              |added| == 1 && added[0].name == "Content-Length" && IsDigits(added[0].value) && ParseDecimal(added[0].value) == |body|
  {
    forall i | 0 <= i < |headers|
      ensures SameName(headers[i].name, "Content-Length") <==> SameText(headers[i].name, "Content-Length")
    {
      SameNameMeans(headers[i].name, "Content-Length");
    }
    DecimalParses(|body|);
  }

  // ----- Blanks

  /** Space, or tab to carriage return. */
  predicate IsBlankCode(c: char) {
    c as int == 32 || 9 <= c as int <= 13
  }

  /** Trimming takes away blanks at both ends, all of them, and nothing else. */
  lemma TrimMeans(s: string) returns (before: string, after: string)
    ensures s == before + Trim(s) + after
    ensures forall i :: 0 <= i < |before| ==> IsBlankCode(before[i])
    ensures forall i :: 0 <= i < |after| ==> IsBlankCode(after[i])
    ensures Trim(s) != "" ==> !IsBlankCode(Trim(s)[0]) && !IsBlankCode(Trim(s)[|Trim(s)| - 1])
  {
    before, after := TrimSplits(s);
  }

  // ----- A strict reader

  /** A field is passed over exactly if it has no name, and the order is kept: the named fields of two lists
      are those of the first, then those of the second. */
  lemma {:induction false} NamedSplits(a: seq<Field>, b: seq<Field>)
    ensures Named(a + b) == Named(a) + Named(b)
    ensures |a| == 1 ==> Named(a) == if a[0].name == "" then [] else a
  {
    if a == [] {
      assert a + b == b;
    } else {
      assert (a + b)[1..] == a[1..] + b && (a + b)[0] == a[0];
      NamedSplits(a[1..], b);
      AppendAssoc(if a[0].name == "" then [] else [a[0]], Named(a[1..]), Named(b));
    }
  }

  /** Reads lines `name: value`, with one space and a CRLF, up to the empty line; and the rest. */
  ghost function ReadFields(text: string): Option<(seq<Field>, string)>
    decreases |text|
  {
    var k := IndexOf(text, '\n');
    if k == |text| then None
    else
      var line, rest := text[..k + 1], text[k + 1..];
      if line == "\r\n" then Some(([], rest))
      else
        var c := IndexOf(line, ':');
        if c + 3 < |line| && line[c..c + 2] == ": " && line[|line| - 2..] == "\r\n" then
          var tail := ReadFields(rest);
          if tail.None? then None
          else Some(([Field(line[..c], line[c + 2..|line| - 2])] + tail.value.0, tail.value.1))
        else None
  }

  ghost predicate Reads(text: string, fields: seq<Field>, rest: string) {
    ReadFields(text) == Some((fields, rest))
  }

  lemma ReadField(f: Field, more: string, fields: seq<Field>, rest: string)
    requires f.name != "" && Sendable(f) && Reads(more, fields, rest)
    ensures Reads(FieldLine(f) + more, [f] + fields, rest)
  {
    var line := FieldLine(f);
    var text := line + more;
    var k := |line| - 1;
    assert line[..k] == f.name + ": " + f.value + "\r";
    assert text[k] == '\n' && text[..k] == line[..k];
    IndexIs(text, '\n', k);
    assert text[..k + 1] == line && text[k + 1..] == more;
    var c := |f.name|;
    assert line[..c] == f.name && line[c] == ':';
    IndexIs(line, ':', c);
    assert line[c..c + 2] == ": " && line[c + 2..|line| - 2] == f.value && line[|line| - 2..] == "\r\n";
  }

  lemma ReadEmptyLine(body: string)
    ensures Reads(CRLF + body, [], body)
  {
    var text := CRLF + body;
    assert text[1] == '\n' && text[..1] == "\r";
    IndexIs(text, '\n', 1);
    assert text[..2] == "\r\n" && text[2..] == body;
  }

  lemma AppendAssoc<T>(a: seq<T>, b: seq<T>, c: seq<T>)
    ensures a + (b + c) == (a + b) + c
  {
  }

  lemma {:induction false} ReadAll(headers: seq<Field>, more: string, fields: seq<Field>, rest: string)
    requires AllSendable(headers) && Reads(more, fields, rest)
    ensures Reads(FieldLines(headers) + more, Named(headers) + fields, rest)
    decreases |headers|
  {
    if headers == [] {
      assert FieldLines(headers) + more == more && Named(headers) + fields == fields;
    } else {
      ReadAll(headers[1..], more, fields, rest);
      ReadNext(headers, more, fields, rest);
    }
  }

  lemma ReadNext(headers: seq<Field>, more: string, fields: seq<Field>, rest: string)
    requires headers != [] && AllSendable(headers)
    requires Reads(FieldLines(headers[1..]) + more, Named(headers[1..]) + fields, rest)
    ensures Reads(FieldLines(headers) + more, Named(headers) + fields, rest)
  {
    var f, tail := headers[0], headers[1..];
    if f.name == "" {
      assert FieldLines(headers) == FieldLines(tail) && Named(headers) == Named(tail);
    } else {
      ReadField(f, FieldLines(tail) + more, Named(tail) + fields, rest);
      Assoc(FieldLine(f), FieldLines(tail), more);
      AppendAssoc([f], Named(tail), fields);
    }
  }

  /** The status part of the start line is the library's text for the code, or the code itself. */
  ghost predicate ReadsAs(status: string, reason: string, statusCode: nat) {
    if reason != "" then status == reason else IsDigits(status) && ParseDecimal(status) == statusCode
  }

  /** What the server prints reads back exactly: the version, the status, the named fields with their values
      untouched and in order, the added length, and the body. */
  lemma PrintedReadsBack(reason: string, statusCode: nat, body: string, headers: seq<Field>) returns (status: string, fields: string)
    requires AllSendable(headers)
    ensures Head(reason, statusCode, body, headers) + body == "HTTP/1.1 " + status + "\r\n" + fields
    ensures ReadsAs(status, reason, statusCode)
    ensures ReadFields(fields) == Some((Named(headers) + AddedFields(body, headers), body))
  {
    status := StatusLine(reason, statusCode);
    DecimalParses(statusCode);
    var added := AddedFields(body, headers);
    var extra := FieldLines(added);
    fields := FieldLines(headers) + (extra + (CRLF + body));
    HeadShape(StartLine(reason, statusCode), FieldLines(headers), extra, body);
    ReadEmptyLine(body);
    AddedIsItself(body, headers);
    NamedAdded(body, headers);
    ReadAll(added, CRLF + body, [], body);
    ReadAll(headers, extra + (CRLF + body), added, body);
  }

  lemma NamedAdded(body: string, headers: seq<Field>)
    ensures Named(AddedFields(body, headers)) + [] == AddedFields(body, headers)
  {
    var f := Field(CONTENT_LENGTH, Decimal(|body|));
    assert [f][1..] == [];
  }
}
