/** The header printer of the HTTP server (cHTTPServer.cpp) and the header parser of the HTTP client
    (cHTTPClient.cpp), in the format of sections 2.1 and 5 of RFC 9112. */
module HttpHeaders {
  import opened Wrappers

  datatype Field = Field(name: string, value: string)

  // ----- Characters (isspace and tolower of the C locale)

  predicate IsSpace(c: char) {
    c == ' ' || '\t' <= c <= '\r'
  }

  function Lower(c: char): char {
    if 'A' <= c <= 'Z' then c - 'A' + 'a' else c
  }

  ghost function Lowered(s: string): string {
    seq(|s|, i requires 0 <= i < |s| => Lower(s[i]))
  }

  /** Equal up to the case of ASCII letters. */
  ghost predicate SameName(a: string, b: string) {
    Lowered(a) == Lowered(b)
  }

  method IEquals(lhs: string, rhs: string) returns (r: bool)
    ensures r <==> SameName(lhs, rhs)
  {
    if |lhs| != |rhs| {
      assert |Lowered(lhs)| != |Lowered(rhs)|;
      return false;
    }
    for index := 0 to |lhs|
      invariant forall i :: 0 <= i < index ==> Lower(lhs[i]) == Lower(rhs[i])
    {
      if Lower(lhs[index]) != Lower(rhs[index]) {
        assert Lowered(lhs)[index] != Lowered(rhs)[index];
        return false;
      }
    }
    return true;
  }

  ghost predicate HasHeader(headers: seq<Field>, name: string) {
    exists i :: 0 <= i < |headers| && SameName(headers[i].name, name)
  }

  method FindHeader(headers: seq<Field>, name: string) returns (r: bool)
    ensures r <==> HasHeader(headers, name)
  {
    for i := 0 to |headers|
      invariant forall k :: 0 <= k < i ==> !SameName(headers[k].name, name)
    {
      var same := IEquals(headers[i].name, name);
      if same {
        return true;
      }
    }
    return false;
  }

  // ----- Trimming

  predicate Blank(s: string) {
    forall i :: 0 <= i < |s| ==> IsSpace(s[i])
  }

  predicate Trimmed(s: string) {
    s == "" || (!IsSpace(s[0]) && !IsSpace(s[|s| - 1]))
  }

  function Trim(s: string): string {
    if s == "" then ""
    else if IsSpace(s[0]) then Trim(s[1..])
    else if IsSpace(s[|s| - 1]) then Trim(s[..|s| - 1])
    else s
  }

  /** Trimming is the only way to cut blank ends off and be left with something trimmed. */
  lemma {:induction false} TrimUnique(before: string, core: string, after: string)
    requires Blank(before) && Trimmed(core) && Blank(after)
    ensures Trim(before + core + after) == core
    decreases |before| + |after|
  {
    var s := before + core + after;
    if before != "" {
      assert s[1..] == before[1..] + core + after;
      TrimUnique(before[1..], core, after);
    } else if core == "" && after != "" {
      assert s[1..] == before + core + after[1..];
      TrimUnique(before, core, after[1..]);
    } else if after != "" {
      assert s[0] == core[0] && s[|s| - 1] == after[|after| - 1];
      assert s[..|s| - 1] == before + core + after[..|after| - 1];
      TrimUnique(before, core, after[..|after| - 1]);
    } else {
      assert s == core;
    }
  }

  lemma PrependOne(s: string, before: string, core: string, after: string)
    requires s != "" && s[1..] == before + core + after
    ensures s == ([s[0]] + before) + core + after
  {
    assert s == [s[0]] + s[1..];
  }

  lemma AppendOne(s: string, before: string, core: string, after: string)
    requires s != "" && s[..|s| - 1] == before + core + after
    ensures s == before + core + (after + [s[|s| - 1]])
  {
    assert s == s[..|s| - 1] + [s[|s| - 1]];
  }

  /** What trimming leaves, and where it was. */
  lemma {:induction false} TrimSplits(s: string) returns (before: string, after: string)
    ensures Blank(before) && Trimmed(Trim(s)) && Blank(after)
    ensures s == before + Trim(s) + after
    decreases |s|
  {
    if s == "" || Trimmed(s) {
      before, after := "", "";
    } else if IsSpace(s[0]) {
      before, after := TrimSplits(s[1..]);
      PrependOne(s, before, Trim(s), after);
      before := [s[0]] + before;
    } else {
      before, after := TrimSplits(s[..|s| - 1]);
      AppendOne(s, before, Trim(s), after);
      after := after + [s[|s| - 1]];
    }
  }

  method TrimCopy(text: string) returns (r: string)
    ensures r == Trim(text)
  {
    var begin := 0;
    while begin < |text| && IsSpace(text[begin])
      invariant 0 <= begin <= |text| && Blank(text[..begin])
    {
      begin := begin + 1;
    }
    var end := |text|;
    while end > begin && IsSpace(text[end - 1])
      invariant begin <= end <= |text| && Blank(text[end..])
    {
      end := end - 1;
    }
    assert text == text[..begin] + text[begin..end] + text[end..];
    assert Trimmed(text[begin..end]);
    TrimUnique(text[..begin], text[begin..end], text[end..]);
    return text[begin..end];
  }

  // ----- Decimal numbers

  function Decimal(n: nat): string {
    if n < 10 then ['0' + n as char] else Decimal(n / 10) + ['0' + (n % 10) as char]
  }

  predicate IsDigits(s: string) {
    s != "" && forall i :: 0 <= i < |s| ==> '0' <= s[i] <= '9'
  }

  ghost function ParseDecimal(s: string): nat
    requires IsDigits(s)
  {
    var last := (s[|s| - 1] - '0') as nat;
    if |s| == 1 then last else 10 * ParseDecimal(s[..|s| - 1]) + last
  }

  lemma {:induction false} DecimalParses(n: nat)
    ensures IsDigits(Decimal(n)) && ParseDecimal(Decimal(n)) == n
  {
    if n >= 10 {
      DecimalParses(n / 10);
      assert Decimal(n)[..|Decimal(n)| - 1] == Decimal(n / 10);
    }
  }

  // ----- The printer

  const VERSION := "HTTP/1.1 "
  const CRLF := "\r\n"
  const CONTENT_LENGTH := "Content-Length"

  /** `reason` is the library's text for the code, empty when it knows none. */
  function StatusLine(reason: string, statusCode: nat): string {
    if reason != "" then reason else Decimal(statusCode)
  }

  function StartLine(reason: string, statusCode: nat): string {
    VERSION + StatusLine(reason, statusCode) + CRLF
  }

  function FieldLine(f: Field): string {
    f.name + ": " + f.value + CRLF
  }

  ghost function FieldLines(headers: seq<Field>): string {
    if headers == [] then ""
    else (if headers[0].name == "" then "" else FieldLine(headers[0])) + FieldLines(headers[1..])
  }

  /** The fields the printer adds on its own. */
  ghost function AddedFields(body: string, headers: seq<Field>): seq<Field> {
    if HasHeader(headers, CONTENT_LENGTH) then [] else [Field(CONTENT_LENGTH, Decimal(|body|))]
  }

  ghost function Head(reason: string, statusCode: nat, body: string, headers: seq<Field>): string {
    StartLine(reason, statusCode) + (FieldLines(headers) + (FieldLines(AddedFields(body, headers)) + CRLF))
  }

  lemma Assoc(a: string, b: string, c: string)
    ensures a + (b + c) == (a + b) + c
  {
  }

  lemma Pieces(a: string, b: string, c: string, d: string, e: string, f: string)
    ensures a + b + c + d + e + f == a + ((b + (c + (d + e))) + f)
  {
    Assoc(c, d, e);
    Assoc(b, c + d, e);
    Assoc(b, c, d);
    Assoc(b + (c + d), e, f);
    Assoc(a, b + (c + d), e + f);
    Assoc(a, b + c, d);
    Assoc(a, b, c);
    Assoc(a + b + c + d, e, f);
  }

  lemma FieldLinesFrom(headers: seq<Field>, i: nat)
    requires i < |headers|
    ensures headers[i].name == "" ==> FieldLines(headers[i..]) == FieldLines(headers[i + 1..])
    ensures headers[i].name != "" ==> FieldLines(headers[i..]) == FieldLine(headers[i]) + FieldLines(headers[i + 1..])
  {
    assert headers[i..][1..] == headers[i + 1..];
  }

  lemma FieldLinesOne(f: Field)
    requires f.name != ""
    ensures FieldLines([f]) == FieldLine(f)
  {
    assert [f][1..] == [];
  }

  class ResponseStream {
    var text: string

    method Put(more: string)
      modifies this
      ensures text == old(text) + more
    {
      text := text + more;
    }
  }

  /** The field loop; fields without a name are passed over. */
  method WriteFields(response: ResponseStream, headers: seq<Field>)
    modifies response
    ensures response.text == old(response.text) + FieldLines(headers)
  {
    ghost var top := response.text;
    for i := 0 to |headers|
      invariant response.text + FieldLines(headers[i..]) == top + FieldLines(headers)
    {
      FieldLinesFrom(headers, i);
      if headers[i].name != "" {
        Assoc(response.text, FieldLine(headers[i]), FieldLines(headers[i + 1..]));
        response.Put(FieldLine(headers[i]));
      }
    }
  }

  /** A null response is left alone; any other gets the head and then the body. */
  method WriteResponse(response: ResponseStream?, reason: string, statusCode: nat, body: string, headers: seq<Field>)
    modifies response
    ensures response != null ==> response.text == old(response.text) + (Head(reason, statusCode, body, headers) + body)
  {
    if response == null {
      return;
    }
    ghost var was := response.text;
    response.Put(StartLine(reason, statusCode));
    WriteFields(response, headers);
    var hasLength := FindHeader(headers, CONTENT_LENGTH);
    if !hasLength {
      response.Put(FieldLine(Field(CONTENT_LENGTH, Decimal(|body|))));
      FieldLinesOne(Field(CONTENT_LENGTH, Decimal(|body|)));
    }
    assert response.text == was + StartLine(reason, statusCode) + FieldLines(headers) + FieldLines(AddedFields(body, headers));
    response.Put(CRLF);
    if body != "" {
      response.Put(body);
    }
    Pieces(was, StartLine(reason, statusCode), FieldLines(headers), FieldLines(AddedFields(body, headers)), CRLF, body);
  }

  // ----- The parser

  datatype Record = Record(headers: seq<Field>, rawHeaders: string)

  /** The position of the first c, or the length. */
  function IndexOf(s: string, c: char): (k: nat)
    ensures k <= |s| && c !in s[..k] && (k < |s| ==> s[k] == c)
  {
    if s == "" || s[0] == c then 0 else 1 + IndexOf(s[1..], c)
  }

  ghost function FieldOf(line: string): seq<Field> {
    var k := IndexOf(line, ':');
    if k == |line| then [] else [Field(Trim(line[..k]), Trim(line[k + 1..]))]
  }

  ghost predicate StartsBlock(line: string) {
    "HTTP/" <= line
  }

  /** What one call of the callback does to the record. */
  ghost function FeedLine(r: Record, line: string): Record {
    var kept := if StartsBlock(line) then Record([], "") else r;
    Record(kept.headers + FieldOf(line), kept.rawHeaders + line)
  }

  class Response {
    var headers: seq<Field>
    var rawHeaders: string

    ghost function View(): Record
      reads this
    {
      Record(headers, rawHeaders)
    }

    method HeaderValue(name: string) returns (value: string)
      ensures value == Lookup(headers, name)
    {
      for i := 0 to |headers|
        invariant Lookup(headers, name) == Lookup(headers[i..], name)
      {
        var same := IEquals(headers[i].name, name);
        if same {
          return headers[i].value;
        }
        assert headers[i..][1..] == headers[i + 1..];
      }
      return "";
    }
  }

  /** Null pointers are refused; otherwise the whole line is consumed. */
  method WriteHeaderCallback(data: Option<string>, response: Response?) returns (consumed: nat)
    modifies response
    ensures data.None? || response == null ==> consumed == 0 && (response != null ==> response.View() == old(response.View()))
    ensures data.Some? && response != null ==>
              response.View() == FeedLine(old(response.View()), data.value) && consumed == |data.value|
  {
    if data.None? || response == null {
      return 0;
    }
    var line := data.value;
    if |line| >= 5 && line[..5] == "HTTP/" {
      response.headers, response.rawHeaders := [], "";
    }
    response.rawHeaders := response.rawHeaders + line;
    var separator := IndexOf(line, ':');
    if separator < |line| {
      var name := TrimCopy(line[..separator]);
      var value := TrimCopy(line[separator + 1..]);
      response.headers := response.headers + [Field(name, value)];
    }
    return |line|;
  }

  /** The value of the first field of that name in any case, or nothing. */
  ghost function Lookup(headers: seq<Field>, name: string): string {
    if headers == [] then ""
    else if SameName(headers[0].name, name) then headers[0].value
    else Lookup(headers[1..], name)
  }

  /** The transfer library's part: it hands the stream to the callback line by line, through the first
      empty line, and keeps the rest for the body. */
  ghost function Receive(r: Record, stream: string): (Record, string)
    decreases |stream|
  {
    var k := IndexOf(stream, '\n');
    if k == |stream| then (r, stream)
    else
      var line := stream[..k + 1];
      var next := FeedLine(r, line);
      if line == "\r\n" || line == "\n" then (next, stream[k + 1..]) else Receive(next, stream[k + 1..])
  }
}
