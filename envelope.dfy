/**
 * The data-URI envelope handling of App.tsx: `base64Image.split(',')[1]`, which takes the
 * payload out of a `data:<mime>;base64,<payload>` string before it is sent, and the
 * `data:image/png;base64,` wrap around the generated bytes before they are displayed.
 * `Split` is JavaScript's `String.prototype.split` with a one-character separator.
 */
module Envelope {
  import opened Common

  const PngEnvelope := "data:image/png;base64,"

  /** `s.split(sep)`: the pieces between separators, always at least one. */
  function Split(s: string, sep: char): (r: seq<string>)
    ensures |r| >= 1
    ensures forall k :: 0 <= k < |r| ==> sep !in r[k]
    decreases |s|
  {
    if s == [] then [""]
    else if s[0] == sep then [""] + Split(s[1..], sep)
    else
      var rest := Split(s[1..], sep);
      [[s[0]] + rest[0]] + rest[1..]
  }

  /** `parts.join(sep)`: the inverse of `Split`. */
  function Join(parts: seq<string>, sep: char): string
    requires |parts| >= 1
    decreases |parts|
  {
    if |parts| == 1 then parts[0] else parts[0] + [sep] + Join(parts[1..], sep)
  }

  /** Joining the pieces gives back the string that was split. */
  lemma {:induction false} JoinSplit(s: string, sep: char)
    ensures Join(Split(s, sep), sep) == s
    decreases |s|
  {
    if s == [] {
    } else if s[0] == sep {
      JoinSplit(s[1..], sep);
      assert Split(s, sep) == [""] + Split(s[1..], sep);
      assert Split(s, sep)[1..] == Split(s[1..], sep);
    } else {
      var rest := Split(s[1..], sep);
      JoinSplit(s[1..], sep);
      var r := Split(s, sep);
      assert r[0] == [s[0]] + rest[0];
      assert r[1..] == rest[1..];
      if |rest| == 1 {
        assert Join(r, sep) == [s[0]] + rest[0] == [s[0]] + s[1..];
      } else {
        assert Join(rest, sep) == rest[0] + [sep] + Join(rest[1..], sep);
        assert Join(r, sep) == [s[0]] + rest[0] + [sep] + Join(rest[1..], sep);
      }
      assert [s[0]] + s[1..] == s;
    }
  }

  /** Splitting a join of separator-free pieces gives back those pieces. */
  lemma {:induction false} SplitJoin(parts: seq<string>, sep: char)
    requires |parts| >= 1
    requires forall k :: 0 <= k < |parts| ==> sep !in parts[k]
    ensures Split(Join(parts, sep), sep) == parts
    decreases |parts|
  {
    if |parts| == 1 {
      SplitFree(parts[0], sep);
    } else {
      SplitJoin(parts[1..], sep);
      SplitAfterFree(parts[0], Join(parts[1..], sep), sep);
    }
  }

  /** A string without the separator is one piece. */
  lemma {:induction false} SplitFree(s: string, sep: char)
    requires sep !in s
    ensures Split(s, sep) == [s]
    decreases |s|
  {
    if s != [] {
      SplitFree(s[1..], sep);
      assert [s[0]] + s[1..] == s;
    }
  }

  /** A separator-free head followed by the separator becomes the first piece. */
  lemma {:induction false} SplitAfterFree(head: string, tail: string, sep: char)
    requires sep !in head
    ensures Split(head + [sep] + tail, sep) == [head] + Split(tail, sep)
    decreases |head|
  {
    var s := head + [sep] + tail;
    if head == [] {
      assert s[1..] == tail;
    } else {
      assert s[1..] == head[1..] + [sep] + tail;
      SplitAfterFree(head[1..], tail, sep);
      assert [head[0]] + head[1..] == head;
    }
  }

  /** `split(',')[1]`: the piece after the first comma; `None` (JavaScript's `undefined`) if there is no comma. */
  function StripEnvelope(dataUrl: string): Option<string>
  {
    var pieces := Split(dataUrl, ',');
    if |pieces| > 1 then Some(pieces[1]) else None
  }

  /** The strip yields nothing exactly when the string holds no comma. */
  lemma {:induction false} StripEnvelopeNoneIffNoComma(dataUrl: string)
    ensures StripEnvelope(dataUrl).None? <==> ',' !in dataUrl
  {
    JoinSplit(dataUrl, ',');
    if ',' !in dataUrl {
      SplitFree(dataUrl, ',');
    }
  }

  /**
   * After a comma-free header and the first comma, the payload runs up to the next comma or
   * to the end: it is a comma-free prefix of the rest, followed by a comma unless it is all of it.
   */
  lemma {:induction false} StripEnvelopeTakesSecondPiece(header: string, rest: string)
    requires ',' !in header
    ensures StripEnvelope(header + "," + rest).Some?
    ensures var payload := StripEnvelope(header + "," + rest).value;
            payload <= rest && ',' !in payload
            && (payload == rest || rest[|payload|] == ',')
  {
    SplitAfterFree(header, rest, ',');
    var pieces := Split(rest, ',');
    JoinSplit(rest, ',');
    if |pieces| > 1 {
      assert rest == pieces[0] + [','] + Join(pieces[1..], ',');
    }
  }

  /** For `data:<mime>;base64,<b64>` with no comma in `<mime>` or `<b64>`, the payload is exactly `<b64>`. */
  lemma StripEnvelopeOfDataUrl(mime: string, b64: string)
    requires ',' !in mime && ',' !in b64
    ensures StripEnvelope("data:" + mime + ";base64," + b64) == Some(b64)
  {
    var header := "data:" + mime + ";base64";
    assert ',' !in header;
    assert "data:" + mime + ";base64," + b64 == header + [','] + b64;
    SplitAfterFree(header, b64, ',');
    SplitFree(b64, ',');
  }

  /** `data:image/png;base64,${bytes}`: the displayed form of generated bytes. */
  function PngImageSource(bytes: string): (src: string)
    ensures PngEnvelope <= src && src[|PngEnvelope|..] == bytes
  {
    PngEnvelope + bytes
  }

  /** Wrapping and then stripping gives the bytes back, when they hold no comma. */
  lemma PngImageSourceRoundTrip(bytes: string)
    requires ',' !in bytes
    ensures StripEnvelope(PngImageSource(bytes)) == Some(bytes)
  {
    assert PngImageSource(bytes) == "data:" + "image/png" + ";base64," + bytes;
    StripEnvelopeOfDataUrl("image/png", bytes);
  }
}
