/**
  The text format of a server-sent event stream (WHATWG HTML Living Standard,
  section 9.2 "Server-sent events"), as far as the file-watcher stream uses it:
  every event is a single `data:` line followed by a blank line. `ParseEvents` is the
  interpretation a client applies (section 9.2.6), restricted to the `data` field,
  which is the only field the stream sends.
 */
module EventStream {

  predicate NoLineBreak(s: string) {
    forall i :: 0 <= i < |s| ==> s[i] != '\n' && s[i] != '\r'
  }

  /** `f"data: {payload}\n\n"` */
  function EncodeEvent(payload: string): (frame: string)
    ensures |frame| == |payload| + 8
    ensures frame[..6] == "data: " && frame[|frame| - 2..] == "\n\n"
    ensures frame[6..|frame| - 2] == payload
  {
    "data: " + payload + "\n\n"
  }

  function EncodeAll(payloads: seq<string>): string {
    if payloads == [] then "" else EncodeEvent(payloads[0]) + EncodeAll(payloads[1..])
  }

  /** The complete lines of `text`, ended by CRLF, LF or CR; `current` is the part of the
      line read so far. A trailing line without its end is not yet a line. */
  function Lines(text: string, current: string): seq<string>
    decreases |text|
  {
    if text == [] then []
    else if text[0] == '\n' then [current] + Lines(text[1..], "")
    else if text[0] == '\r' then
      if |text| > 1 && text[1] == '\n' then [current] + Lines(text[2..], "")
      else [current] + Lines(text[1..], "")
    else Lines(text[1..], current + [text[0]])
  }

  /** Position of the first `:` in `line`, or `|line|` when there is none. */
  function ColonAt(line: string): (i: nat)
    ensures i <= |line|
    ensures forall j :: 0 <= j < i ==> line[j] != ':'
    ensures i < |line| ==> line[i] == ':'
  {
    if line == [] then 0
    else if line[0] == ':' then 0
    else 1 + ColonAt(line[1..])
  }

  /** The field name of a line and its value, with one leading space removed. */
  function Field(line: string): (string, string) {
    var i := ColonAt(line);
    if i == |line| then (line, "")
    else
      var value := line[i + 1..];
      (line[..i], if value != [] && value[0] == ' ' then value[1..] else value)
  }

  /** Process lines with `data` as the data buffer; each blank line dispatches the
      buffer, without its last line feed, unless the buffer is empty. */
  function Dispatch(lines: seq<string>, data: string): seq<string>
    decreases |lines|
  {
    if lines == [] then []
    else
      var line := lines[0];
      if line == [] then
        (if data == [] then [] else [data[..|data| - 1]]) + Dispatch(lines[1..], "")
      else if line[0] == ':' then
        Dispatch(lines[1..], data)
      else
        var (name, value) := Field(line);
        Dispatch(lines[1..], if name == "data" then data + value + "\n" else data)
  }

  /** The data of every event a client dispatches while reading `text`. */
  function ParseEvents(text: string): seq<string> {
    Dispatch(Lines(text, ""), "")
  }

  lemma {:induction false} LinesOfPlainText(t: string, rest: string, current: string)
    requires NoLineBreak(t)
    ensures Lines(t + rest, current) == Lines(rest, current + t)
    decreases |t|
  {
    if t != [] {
      assert (t + rest)[1..] == t[1..] + rest;
      assert current + t == (current + [t[0]]) + t[1..];
      LinesOfPlainText(t[1..], rest, current + [t[0]]);
    } else {
      assert t + rest == rest;
      assert current + t == current;
    }
  }

  lemma LinesOfEvent(payload: string, rest: string)
    requires NoLineBreak(payload)
    ensures Lines(EncodeEvent(payload) + rest, "") == ["data: " + payload, ""] + Lines(rest, "")
  {
    var line := "data: " + payload;
    assert NoLineBreak(line) by {
      forall i | 0 <= i < |line| ensures line[i] != '\n' && line[i] != '\r' {
        if i >= 6 {
          assert line[i] == payload[i - 6];
        }
      }
    }
    assert EncodeEvent(payload) + rest == line + ("\n\n" + rest);
    LinesOfPlainText(line, "\n\n" + rest, "");
    assert "" + line == line;
    assert ("\n\n" + rest)[1..] == "\n" + rest;
    assert ("\n" + rest)[1..] == rest;
  }

  lemma DispatchEvent(payload: string, lines: seq<string>)
    ensures Dispatch(["data: " + payload, ""] + lines, "") == [payload] + Dispatch(lines, "")
  {
    var line := "data: " + payload;
    assert line[..4] == "data" && line[4] == ':';
    assert line[5..] == " " + payload;
    assert line[5..][1..] == payload;
    assert ColonAt(line) == 4;
    assert Field(line) == ("data", payload);
    var ls := ["data: " + payload, ""] + lines;
    assert ls[1..] == [""] + lines;
    assert ([""] + lines)[1..] == lines;
    var data := "" + payload + "\n";
    assert data[..|data| - 1] == payload;
  }

  /** A client reading the stream recovers every payload, in order, as long as no
      payload contains a line break (`json.dumps` escapes them). */
  lemma {:induction false} ParseEncodeRoundTrip(payloads: seq<string>)
    requires forall i :: 0 <= i < |payloads| ==> NoLineBreak(payloads[i])
    ensures ParseEvents(EncodeAll(payloads)) == payloads
    decreases |payloads|
  {
    if payloads != [] {
      LinesOfEvent(payloads[0], EncodeAll(payloads[1..]));
      DispatchEvent(payloads[0], Lines(EncodeAll(payloads[1..]), ""));
      ParseEncodeRoundTrip(payloads[1..]);
    }
  }
}
