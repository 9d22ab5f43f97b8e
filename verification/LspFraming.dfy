/** Content-Length framing of LSP messages over a byte stream: the incremental parser
    with its size limits, and the printer. */
module LspFraming {
  import opened Base
  import opened Decimal
  import opened Text

  type byte = x: int | 0 <= x < 256

  const MAX_HEADER_BYTES: nat := 8 * 1024
  const MAX_BODY_BYTES: nat := 64 * 1024 * 1024
  const MAX_SAFE_INTEGER: nat := 9007199254740991

  const CR: byte := 13
  const LF: byte := 10
  const COLON: byte := 58

  /** `content-length`, and the printed `Content-Length: ` in front of a number. */
  const LENGTH_NAME: seq<byte> := [99, 111, 110, 116, 101, 110, 116, 45, 108, 101, 110, 103, 116, 104]
  const LENGTH_PREFIX: seq<byte> := [67, 111, 110, 116, 101, 110, 116, 45, 76, 101, 110, 103, 116, 104, 58, 32]

  datatype FramingError =
    | HeaderTooLong
    | MissingColon
    | LengthHeaderCount(count: nat)
    | LengthNotDecimal
    | LengthNotPositiveSafe
    | LengthTooLarge
    | BodyNotUtf8
    | BodyNotJson

  /** What decoding a body as UTF-8 and then JSON gives. */
  datatype Decoded<+M> = Decoded(m: M) | NotUtf8 | NotJson

  // ---------------------------------------------------------------------------
  // Header text
  // ---------------------------------------------------------------------------

  /** ASCII decoding keeps the low seven bits of every byte. */
  function Ascii(bytes: seq<byte>): (text: seq<byte>)
    ensures |text| == |bytes|
    ensures forall i :: 0 <= i < |text| ==> text[i] == bytes[i] % 128
  {
    seq(|bytes|, i requires 0 <= i < |bytes| => bytes[i] % 128)
  }

  /** Position of the first colon. */
  function ColonAt(line: seq<byte>): (r: Option<nat>)
    ensures r.None? <==> COLON !in line
    ensures r.Some? ==> r.value < |line| && line[r.value] == COLON && COLON !in line[..r.value]
  {
    if line == [] then None
    else if line[0] == COLON then Some(0)
    else
      var rest := ColonAt(line[1..]);
      if rest.None? then None
      else
        assert line[..rest.value + 1] == [line[0]] + line[1..][..rest.value];
        Some(rest.value + 1)
  }

  /** The mark `pattern` occurs in `s` at `i`. */
  predicate OccursAt(s: seq<byte>, pattern: seq<byte>, i: nat) {
    i + |pattern| <= |s| && s[i..i + |pattern|] == pattern
  }

  /** First occurrence of a pattern at or after `from`. */
  function IndexOf(s: seq<byte>, pattern: seq<byte>, from: nat): (r: Option<nat>)
    requires from <= |s|
    ensures r.None? ==> forall i: nat :: from <= i ==> !OccursAt(s, pattern, i)
    ensures r.Some? ==> from <= r.value && OccursAt(s, pattern, r.value)
    ensures r.Some? ==> forall i: nat :: from <= i < r.value ==> !OccursAt(s, pattern, i)
    decreases |s| - from
  {
    if OccursAt(s, pattern, from) then Some(from)
    else if from == |s| then None
    else IndexOf(s, pattern, from + 1)
  }

  const CRLF: seq<byte> := [CR, LF]

  /** Splitting at every CR LF, left to right. */
  function Lines(header: seq<byte>): (lines: seq<seq<byte>>)
    ensures lines != []
    decreases |header|
  {
    var i := IndexOf(header, CRLF, 0);
    if i.None? then [header] else [header[..i.value]] + Lines(header[i.value + 2..])
  }

  function JoinLines(lines: seq<seq<byte>>): seq<byte>
    requires lines != []
  {
    if |lines| == 1 then lines[0] else lines[0] + CRLF + JoinLines(lines[1..])
  }

  /** An occurrence that fits in a prefix is an occurrence in the prefix. */
  lemma OccursInPrefix(a: seq<byte>, b: seq<byte>, pattern: seq<byte>)
    ensures forall i: nat :: i + |pattern| <= |a| ==> (OccursAt(a + b, pattern, i) <==> OccursAt(a, pattern, i))
  {
    forall i: nat | i + |pattern| <= |a| ensures OccursAt(a + b, pattern, i) <==> OccursAt(a, pattern, i) {
      assert (a + b)[i..i + |pattern|] == a[i..i + |pattern|];
    }
  }

  ghost predicate Unbroken(line: seq<byte>) {
    forall i: nat :: !OccursAt(line, CRLF, i)
  }

  /** The split loses nothing and leaves no line break inside a line. */
  lemma {:induction false} LinesRoundTrip(header: seq<byte>)
    ensures JoinLines(Lines(header)) == header
    ensures forall line :: line in Lines(header) ==> Unbroken(line)
    decreases |header|
  {
    var at := IndexOf(header, CRLF, 0);
    if at.Some? {
      var first, rest := header[..at.value], header[at.value + 2..];
      LinesRoundTrip(rest);
      assert header == first + CRLF + rest;
      assert Unbroken(first) by {
        assert header == first + header[at.value..];
        OccursInPrefix(first, header[at.value..], CRLF);
      }
      assert Lines(header) == [first] + Lines(rest);
    }
  }

  /** The Content-Length values among the first header lines, in order. */
  function LengthValues(lines: seq<seq<byte>>): seq<seq<int>>
    requires forall i :: 0 <= i < |lines| ==> COLON in lines[i]
  {
    if lines == [] then []
    else
      var rest, line := LengthValues(lines[..|lines| - 1]), lines[|lines| - 1];
      var colon := ColonAt(line).value;
      if Lower(Trim(line[..colon])) == LENGTH_NAME then rest + [Trim(line[colon + 1..])] else rest
  }

  datatype LengthResult = Length(bytes: nat) | BadHeader(error: FramingError)

  function LengthOfValues(values: seq<seq<int>>): (r: LengthResult)
    ensures r.Length? ==> 1 <= r.bytes <= MAX_BODY_BYTES
  {
    if |values| != 1 then BadHeader(LengthHeaderCount(|values|))
    else if !AllDigits(values[0]) then BadHeader(LengthNotDecimal)
    else
      var length := Value(values[0]);
      if length == 0 || length > MAX_SAFE_INTEGER then BadHeader(LengthNotPositiveSafe)
      else if length > MAX_BODY_BYTES then BadHeader(LengthTooLarge)
      else Length(length)
  }

  /** The body length a header announces. */
  function ContentLength(header: seq<byte>): (r: LengthResult)
    ensures r.Length? ==> 1 <= r.bytes <= MAX_BODY_BYTES
  {
    var lines := Lines(header);
    if exists i :: 0 <= i < |lines| && COLON !in lines[i] then BadHeader(MissingColon)
    else LengthOfValues(LengthValues(lines))
  }

  method ParseContentLength(header: seq<byte>) returns (r: LengthResult)
    ensures r == ContentLength(header)
  {
    hide Trim, Lower, LengthOfValues, Lines, ColonAt;
    var values: seq<seq<int>> := [];
    var lines := Lines(header);
    for k := 0 to |lines|
      invariant forall i :: 0 <= i < k ==> COLON in lines[i]
      invariant values == LengthValues(lines[..k])
    {
      var line := lines[k];
      var separator := ColonAt(line);
      if separator.None? {
        return BadHeader(MissingColon);
      }
      assert lines[..k + 1][..k] == lines[..k];
      if Lower(Trim(line[..separator.value])) == LENGTH_NAME {
        values := values + [Trim(line[separator.value + 1..])];
      }
    }
    assert lines[..|lines|] == lines;
    r := LengthOfValues(values);
  }

  /** `content-length` in any mixture of upper and lower case. */
  predicate IsLengthName(name: seq<int>) {
    |name| == 14 && forall k :: 0 <= k < 14 ==>
      name[k] == LENGTH_NAME[k] || (65 <= name[k] <= 90 && name[k] + 32 == LENGTH_NAME[k])
  }

  /** The line gives this value for the length: up to its first colon, apart from surrounding white
      space, it has the name, and after that colon the value. */
  ghost predicate Announces(line: seq<byte>, value: seq<int>) {
    exists c: nat :: FirstColonAt(line, c) && HasName(line[..c]) && Stripped(line[c + 1..], value)
  }

  ghost predicate FirstColonAt(line: seq<byte>, c: nat) {
    c < |line| && line[c] == 58 && forall k :: 0 <= k < c ==> line[k] != 58
  }

  ghost predicate HasName(field: seq<int>) {
    exists name :: Stripped(field, name) && IsLengthName(name)
  }

  ghost predicate AnnouncesSome(line: seq<byte>) {
    exists value :: Announces(line, value)
  }

  lemma NameInAnyCase(name: seq<int>)
    ensures Lower(name) == LENGTH_NAME <==> IsLengthName(name)
  {
    assert |LENGTH_NAME| == 14;
    assert forall c :: c in LENGTH_NAME ==> c == 45 || 97 <= c <= 122;
    assert forall k :: 0 <= k < 14 ==> LENGTH_NAME[k] in LENGTH_NAME;
    if IsLengthName(name) {
      assert Lower(name) == LENGTH_NAME;
    }
  }

  lemma NamedField(field: seq<int>)
    ensures HasName(field) <==> Lower(Trim(field)) == LENGTH_NAME
  {
    hide Trim, Stripped, Lower, IsLengthName;
    TrimStrips(field);
    NameInAnyCase(Trim(field));
    if HasName(field) {
      var name :| Stripped(field, name) && IsLengthName(name);
      StrippedIsUnique(field, name, Trim(field));
    }
  }

  lemma FirstColon(line: seq<byte>)
    requires COLON in line
    ensures forall d: nat :: FirstColonAt(line, d) <==> ColonAt(line) == Some(d)
  {
    hide ColonAt;
    var c := ColonAt(line).value;
    assert forall k :: 0 <= k < c ==> line[k] == line[..c][k];
    assert FirstColonAt(line, c);
  }

  /** A line that announces a length announces one value. */
  lemma AnnouncedValue(line: seq<byte>)
    requires COLON in line
    ensures var c := ColonAt(line).value;
            if Lower(Trim(line[..c])) == LENGTH_NAME then Announces(line, Trim(line[c + 1..])) else !AnnouncesSome(line)
    ensures forall value :: Announces(line, value) ==> value == Trim(line[ColonAt(line).value + 1..])
  {
    var c := ColonAt(line).value;
    hide Trim, Stripped, ColonAt, Lower, FirstColonAt, HasName;
    FirstColon(line);
    NamedField(line[..c]);
    TrimStrips(line[c + 1..]);
    forall value | Announces(line, value) ensures Trim(line[c + 1..]) == value {
      StrippedIsUnique(line[c + 1..], value, Trim(line[c + 1..]));
    }
  }

  ghost predicate AllHaveColons(lines: seq<seq<byte>>) {
    forall i :: 0 <= i < |lines| ==> COLON in lines[i]
  }

  /** The last line adds its value, if it announces one. */
  lemma ValuesOfMore(lines: seq<seq<byte>>)
    requires AllHaveColons(lines) && lines != []
    ensures var before, last := lines[..|lines| - 1], lines[|lines| - 1];
            && AllHaveColons(before)
            && (!AnnouncesSome(last) ==> LengthValues(lines) == LengthValues(before))
            && (forall value :: Announces(last, value) ==> LengthValues(lines) == LengthValues(before) + [value])
  {
    AnnouncedValue(lines[|lines| - 1]);
    hide Announces, ColonAt, Trim, Lower;
  }

  lemma {:induction false} NoValues(lines: seq<seq<byte>>)
    requires AllHaveColons(lines)
    requires forall i :: 0 <= i < |lines| ==> !AnnouncesSome(lines[i])
    ensures LengthValues(lines) == []
  {
    if lines != [] {
      ValuesOfMore(lines);
      hide Announces, AllHaveColons, LengthValues;
      NoValues(lines[..|lines| - 1]);
    }
  }

  lemma {:induction false} OneValue(lines: seq<seq<byte>>, k: nat, value: seq<int>)
    requires AllHaveColons(lines) && k < |lines| && Announces(lines[k], value)
    requires forall i :: 0 <= i < |lines| && i != k ==> !AnnouncesSome(lines[i])
    ensures LengthValues(lines) == [value]
  {
    ValuesOfMore(lines);
    hide Announces, AnnouncesSome, AllHaveColons, LengthValues;
    if k == |lines| - 1 {
      NoValues(lines[..|lines| - 1]);
    } else {
      OneValue(lines[..|lines| - 1], k, value);
    }
  }

  lemma {:induction false} SomeValue(lines: seq<seq<byte>>, k: nat)
    requires AllHaveColons(lines) && k < |lines| && AnnouncesSome(lines[k])
    ensures |LengthValues(lines)| >= 1
  {
    ValuesOfMore(lines);
    hide Announces, AllHaveColons, LengthValues;
    if k < |lines| - 1 {
      SomeValue(lines[..|lines| - 1], k);
    }
  }

  lemma {:induction false} TwoValues(lines: seq<seq<byte>>, j: nat, k: nat)
    requires AllHaveColons(lines) && j < k < |lines| && AnnouncesSome(lines[j]) && AnnouncesSome(lines[k])
    ensures |LengthValues(lines)| >= 2
  {
    ValuesOfMore(lines);
    hide Announces, AllHaveColons, LengthValues;
    if k < |lines| - 1 {
      TwoValues(lines[..|lines| - 1], j, k);
    } else {
      SomeValue(lines[..|lines| - 1], j);
    }
  }

  /** The verdict on the only value given. */
  predicate Judged(value: seq<int>, r: LengthResult) {
    if value == [] || exists k :: 0 <= k < |value| && !(48 <= value[k] <= 57) then r == BadHeader(LengthNotDecimal)
    else
      var length := Value(value);
      if 1 <= length <= 67108864 then r == Length(length)
      else if 67108864 < length <= 9007199254740991 then r == BadHeader(LengthTooLarge)
      else r == BadHeader(LengthNotPositiveSafe)
  }

  /** A header with exactly one announcing line is judged by the value it gives: a decimal numeral from 1 to
      64 MiB is the length. */
  lemma LengthOfHeader(header: seq<byte>, k: nat, value: seq<int>)
    requires AllHaveColons(Lines(header)) && k < |Lines(header)| && Announces(Lines(header)[k], value)
    requires forall i :: 0 <= i < |Lines(header)| && i != k ==> !AnnouncesSome(Lines(header)[i])
    ensures Judged(value, ContentLength(header))
  {
    OneValue(Lines(header), k, value);
    hide Announces, AnnouncesSome, Lines, LengthValues;
  }

  /** Every other header is refused, and how: a line without a colon, no announcing line, or several. */
  lemma OtherHeadersRefused(header: seq<byte>)
    ensures var lines, r := Lines(header), ContentLength(header);
            && (!AllHaveColons(lines) ==> r == BadHeader(MissingColon))
            && (AllHaveColons(lines) && (forall i :: 0 <= i < |lines| ==> !AnnouncesSome(lines[i])) ==>
                  r == BadHeader(LengthHeaderCount(0)))
            && (AllHaveColons(lines) ==>
                  forall j: nat, k: nat :: j < k < |lines| && AnnouncesSome(lines[j]) && AnnouncesSome(lines[k]) ==>
                    r.BadHeader? && r.error.LengthHeaderCount? && r.error.count >= 2)
  {
    hide Announces, AnnouncesSome, Lines, LengthValues;
    var lines := Lines(header);
    if AllHaveColons(lines) {
      if forall i :: 0 <= i < |lines| ==> !AnnouncesSome(lines[i]) {
        NoValues(lines);
      }
      forall j: nat, k: nat | j < k < |lines| && AnnouncesSome(lines[j]) && AnnouncesSome(lines[k])
        ensures |LengthValues(lines)| >= 2
      {
        TwoValues(lines, j, k);
      }
    }
  }

  // ---------------------------------------------------------------------------
  // The parser
  // ---------------------------------------------------------------------------

  const SEPARATOR: seq<byte> := [CR, LF, CR, LF]

  /** What the front of the buffer holds. */
  datatype Front<+M> = Incomplete | Broken(error: FramingError) | Framed(m: M, size: nat)

  function FrontOf<M>(buffer: seq<byte>, decode: seq<byte> -> Decoded<M>): (r: Front<M>)
    ensures r.Framed? ==> 0 < r.size <= |buffer|
  {
    var headerEnd := IndexOf(buffer, SEPARATOR, 0);
    if headerEnd.None? then
      if |buffer| > MAX_HEADER_BYTES + |SEPARATOR| - 1 then Broken(HeaderTooLong) else Incomplete
    else if headerEnd.value > MAX_HEADER_BYTES then Broken(HeaderTooLong)
    else
      var length := ContentLength(Ascii(buffer[..headerEnd.value]));
      if length.BadHeader? then Broken(length.error)
      else
        var bodyStart := headerEnd.value + |SEPARATOR|;
        var bodyEnd := bodyStart + length.bytes;
        if |buffer| < bodyEnd then Incomplete
        else
          match decode(buffer[bodyStart..bodyEnd])
          case NotUtf8 => Broken(BodyNotUtf8)
          case NotJson => Broken(BodyNotJson)
          case Decoded(m) => Framed(m, bodyEnd)
  }

  predicate BlankLineAt(buffer: seq<byte>, i: int) {
    0 <= i <= |buffer| - 4 && buffer[i] == 13 && buffer[i + 1] == 10 && buffer[i + 2] == 13 && buffer[i + 3] == 10
  }

  /** The first blank line, CR LF CR LF, starts at `h`. */
  ghost predicate HeaderEndsAt(buffer: seq<byte>, h: nat) {
    BlankLineAt(buffer, h) && forall i :: 0 <= i < h ==> !BlankLineAt(buffer, i)
  }

  lemma SeparatorAt(buffer: seq<byte>, i: nat)
    ensures OccursAt(buffer, SEPARATOR, i) <==> BlankLineAt(buffer, i)
  {
    if i + 4 <= |buffer| {
      var s := buffer[i..i + 4];
      assert s == SEPARATOR <==> s[0] == 13 && s[1] == 10 && s[2] == 13 && s[3] == 10;
    }
  }

  /** A buffer without a blank line may still become a message unless it is longer than 8195 bytes. */
  lemma NoHeaderYet<M>(buffer: seq<byte>, decode: seq<byte> -> Decoded<M>)
    requires forall i :: !BlankLineAt(buffer, i)
    ensures FrontOf(buffer, decode) == if |buffer| < 8196 then Incomplete else Broken(HeaderTooLong)
  {
    var at := IndexOf(buffer, SEPARATOR, 0);
    if at.Some? {
      SeparatorAt(buffer, at.value);
    }
  }

  /** A header of more than 8192 bytes is refused; the length of any other counts the body bytes after the
      blank line, and once they are there the body decides. */
  lemma HeaderDecides<M>(buffer: seq<byte>, h: nat, decode: seq<byte> -> Decoded<M>)
    requires HeaderEndsAt(buffer, h)
    ensures var length, front := ContentLength(Ascii(buffer[..h])), FrontOf(buffer, decode);
            if h > 8192 then front == Broken(HeaderTooLong)
            else if length.BadHeader? then front == Broken(length.error)
            else if |buffer| < h + 4 + length.bytes then front == Incomplete
            else
              var body := decode(buffer[h + 4..h + 4 + length.bytes]);
              && (front == Broken(BodyNotUtf8) <==> body == NotUtf8)
              && (front == Broken(BodyNotJson) <==> body == NotJson)
              && (body.Decoded? ==> front == Framed(body.m, h + 4 + length.bytes))
  {
    SeparatorAt(buffer, h);
    assert IndexOf(buffer, SEPARATOR, 0) == Some(h) by {
      hide BlankLineAt;
      var at := IndexOf(buffer, SEPARATOR, 0);
      hide OccursAt;
      SeparatorAt(buffer, at.value);
    }
    hide ContentLength, Ascii, IndexOf, HeaderEndsAt;
  }

  /** Messages delivered, and either the undigested rest or the framing error. */
  datatype Parsed<+M> =
    | Parsed(messages: seq<M>, remaining: seq<byte>)
    | Failed(messages: seq<M>, error: FramingError)

  function Prepend<M>(m: M, p: Parsed<M>): Parsed<M> {
    match p
    case Parsed(messages, remaining) => Parsed([m] + messages, remaining)
    case Failed(messages, error) => Failed([m] + messages, error)
  }

  /** Parsing a whole buffer at once. */
  function Parse<M>(buffer: seq<byte>, decode: seq<byte> -> Decoded<M>): Parsed<M>
    decreases |buffer|
  {
    match FrontOf(buffer, decode)
    case Incomplete => Parsed([], buffer)
    case Broken(error) => Failed([], error)
    case Framed(m, size) => Prepend(m, Parse(buffer[size..], decode))
  }

  /** Putting messages already delivered in front of a parse. */
  function After<M>(messages: seq<M>, p: Parsed<M>): Parsed<M> {
    match p
    case Parsed(more, remaining) => Parsed(messages + more, remaining)
    case Failed(more, error) => Failed(messages + more, error)
  }

  lemma AfterPrepend<M>(messages: seq<M>, m: M, p: Parsed<M>)
    ensures After(messages, Prepend(m, p)) == After(messages + [m], p)
  {
    assert messages + ([m] + p.messages) == messages + [m] + p.messages;
  }

  method ParseFront<M>(buffer: seq<byte>, decode: seq<byte> -> Decoded<M>) returns (r: Front<M>)
    ensures r == FrontOf(buffer, decode)
  {
    var headerEnd := IndexOf(buffer, SEPARATOR, 0);
    if headerEnd.None? {
      var maxIncomplete := MAX_HEADER_BYTES + |SEPARATOR| - 1;
      return if |buffer| > maxIncomplete then Broken(HeaderTooLong) else Incomplete;
    }
    if headerEnd.value > MAX_HEADER_BYTES {
      return Broken(HeaderTooLong);
    }
    var length := ParseContentLength(Ascii(buffer[..headerEnd.value]));
    if length.BadHeader? {
      return Broken(length.error);
    }
    var bodyStart := headerEnd.value + |SEPARATOR|;
    var bodyEnd := bodyStart + length.bytes;
    if |buffer| < bodyEnd {
      return Incomplete;
    }
    match decode(buffer[bodyStart..bodyEnd])
    case NotUtf8 => r := Broken(BodyNotUtf8);
    case NotJson => r := Broken(BodyNotJson);
    case Decoded(m) => r := Framed(m, bodyEnd);
  }

  /** The parser as the loop the runtime runs. */
  method ParseMessages<M>(buffer: seq<byte>, decode: seq<byte> -> Decoded<M>) returns (r: Parsed<M>)
    ensures r == Parse(buffer, decode)
  {
    hide FrontOf;
    var messages: seq<M> := [];
    var remaining := buffer;
    assert After(messages, Parse(remaining, decode)) == Parse(buffer, decode);
    while true
      invariant After(messages, Parse(remaining, decode)) == Parse(buffer, decode)
      decreases |remaining|
    {
      var front := ParseFront(remaining, decode);
      match front
      case Incomplete => return Parsed(messages, remaining);
      case Broken(error) => return Failed(messages, error);
      case Framed(m, size) =>
        AfterPrepend(messages, m, Parse(remaining[size..], decode));
        messages := messages + [m];
        remaining := remaining[size..];
    }
  }

  // ---------------------------------------------------------------------------
  // Chunking invariance
  // ---------------------------------------------------------------------------

  /** A separator found in a prefix is the first one of every extension; with none in
      the prefix, one can only appear across or after its end. */
  lemma IndexOfExtends(a: seq<byte>, b: seq<byte>, pattern: seq<byte>)
    requires pattern != []
    ensures var i, j := IndexOf(a, pattern, 0), IndexOf(a + b, pattern, 0);
            if i.Some? then j == i else j.Some? ==> j.value + |pattern| > |a|
  {
    hide IndexOf;
    OccursInPrefix(a, b, pattern);
    var i, j := IndexOf(a, pattern, 0), IndexOf(a + b, pattern, 0);
    if i.Some? {
      assert OccursAt(a + b, pattern, i.value);
      assert j.value + |pattern| <= |a|;
    }
  }

  /** A verdict on a prefix, good or bad, is the verdict on every continuation: in particular
      the over-long header rejection is never premature. */
  lemma FrontIsStable<M>(a: seq<byte>, b: seq<byte>, decode: seq<byte> -> Decoded<M>)
    requires !FrontOf(a, decode).Incomplete?
    ensures FrontOf(a + b, decode) == FrontOf(a, decode)
  {
    hide ContentLength;
    var at := IndexOf(a, SEPARATOR, 0);
    IndexOfExtends(a, b, SEPARATOR);
    if at.Some? {
      assert (a + b)[..at.value] == a[..at.value];
      var length := ContentLength(Ascii(a[..at.value]));
      if at.value <= MAX_HEADER_BYTES && length.Length? {
        var start := at.value + |SEPARATOR|;
        if start + length.bytes <= |a| {
          assert (a + b)[start..start + length.bytes] == a[start..start + length.bytes];
        }
      }
    }
  }

  lemma {:induction false} ParseAppend<M>(a: seq<byte>, b: seq<byte>, decode: seq<byte> -> Decoded<M>)
    ensures Parse(a + b, decode) ==
            match Parse(a, decode)
            case Failed(_, _) => Parse(a, decode)
            case Parsed(messages, remaining) => After(messages, Parse(remaining + b, decode))
    decreases |a|
  {
    hide FrontOf;
    var front := FrontOf(a, decode);
    if front.Incomplete? {
      assert After([], Parse(a + b, decode)) == Parse(a + b, decode);
    } else {
      FrontIsStable(a, b, decode);
      if front.Framed? {
        var rest := a[front.size..];
        assert (a + b)[front.size..] == rest + b;
        ParseAppend(rest, b, decode);
        if Parse(rest, decode).Parsed? {
          var tail := Parse(Parse(rest, decode).remaining + b, decode);
          assert [front.m] + (Parse(rest, decode).messages + tail.messages)
              == [front.m] + Parse(rest, decode).messages + tail.messages;
        }
      }
    }
  }

  /** One chunk into a stream that has not failed; a failed stream takes no more. */
  function Feed<M>(sofar: Parsed<M>, chunk: seq<byte>, decode: seq<byte> -> Decoded<M>): Parsed<M> {
    match sofar
    case Failed(_, _) => sofar
    case Parsed(messages, remaining) => After(messages, Parse(remaining + chunk, decode))
  }

  function FeedAll<M>(chunks: seq<seq<byte>>, decode: seq<byte> -> Decoded<M>): Parsed<M> {
    if chunks == [] then Parsed([], [])
    else Feed(FeedAll(chunks[..|chunks| - 1], decode), chunks[|chunks| - 1], decode)
  }

  function Concat(chunks: seq<seq<byte>>): seq<byte> {
    if chunks == [] then [] else Concat(chunks[..|chunks| - 1]) + chunks[|chunks| - 1]
  }

  /** However the stream is cut, the deliveries, the leftover and the error are those of the whole stream. */
  lemma {:induction false} ChunkingInvariance<M>(chunks: seq<seq<byte>>, decode: seq<byte> -> Decoded<M>)
    ensures FeedAll(chunks, decode) == Parse(Concat(chunks), decode)
  {
    if chunks != [] {
      var earlier := chunks[..|chunks| - 1];
      ChunkingInvariance(earlier, decode);
      ParseAppend(Concat(earlier), chunks[|chunks| - 1], decode);
    }
  }

  lemma CutsDoNotMatter<M>(xs: seq<seq<byte>>, ys: seq<seq<byte>>, decode: seq<byte> -> Decoded<M>)
    requires Concat(xs) == Concat(ys)
    ensures FeedAll(xs, decode) == FeedAll(ys, decode)
  {
    ChunkingInvariance(xs, decode);
    ChunkingInvariance(ys, decode);
  }

  // ---------------------------------------------------------------------------
  // The printer and the round trip
  // ---------------------------------------------------------------------------

  /** The printed header in front of a body. */
  function Header(n: nat): seq<byte> {
    LENGTH_PREFIX + Digits(n)
  }

  function Encode(body: seq<byte>): seq<byte> {
    Header(|body|) + SEPARATOR + body
  }

  function EncodeAll(bodies: seq<seq<byte>>): seq<byte> {
    if bodies == [] then [] else Encode(bodies[0]) + EncodeAll(bodies[1..])
  }

  lemma TrimNothing(s: seq<int>)
    requires Trimmed(s)
    ensures Trim(s) == s
  {
  }

  lemma NoLineBreak(s: seq<byte>, pattern: seq<byte>)
    requires pattern != [] && pattern[0] == CR
    requires forall i :: 0 <= i < |s| ==> s[i] != CR
    ensures forall i: nat :: !OccursAt(s, pattern, i)
  {
    forall i: nat ensures !OccursAt(s, pattern, i) {
      assert i + |pattern| <= |s| ==> s[i..i + |pattern|][0] == s[i];
    }
  }

  lemma PrefixShape()
    ensures |LENGTH_PREFIX| == 16 && LENGTH_PREFIX[14] == COLON && LENGTH_PREFIX[15] == 32
    ensures COLON !in LENGTH_PREFIX[..14]
    ensures forall i :: 0 <= i < 16 ==> LENGTH_PREFIX[i] != CR && LENGTH_PREFIX[i] < 128
  {
    assert LENGTH_PREFIX[..14] == [67, 111, 110, 116, 101, 110, 116, 45, 76, 101, 110, 103, 116, 104];
    assert forall c :: c in LENGTH_PREFIX ==> c != CR && c < 128;
    assert forall i :: 0 <= i < 16 ==> LENGTH_PREFIX[i] in LENGTH_PREFIX;
  }

  lemma HeaderShape(n: nat)
    ensures forall i :: 0 <= i < |Header(n)| ==> Header(n)[i] != CR && Header(n)[i] < 128
    ensures |Header(n)| == 16 + |Digits(n)|
    ensures Header(n)[..14] == LENGTH_PREFIX[..14] && Header(n)[14] == COLON && Header(n)[15..] == [32] + Digits(n)
    ensures COLON !in Header(n)[..14]
  {
    hide Digits, Value;
    PrefixShape();
    assert LENGTH_PREFIX[15..] == [32];
    assert Header(n)[..14] == LENGTH_PREFIX[..14];
    assert Header(n)[15..] == LENGTH_PREFIX[15..] + Digits(n);
  }

  lemma PrintedName()
    ensures Lower(Trim(LENGTH_PREFIX[..14])) == LENGTH_NAME
  {
    var name := LENGTH_PREFIX[..14];
    assert name[0] == 67 && name[13] == 104;
    TrimNothing(name);
    assert Lower(name) == LENGTH_NAME;
  }

  lemma PrintedValue(digits: seq<int>)
    requires AllDigits(digits)
    ensures Trim([32] + digits) == digits
  {
    assert ([32] + digits)[1..] == digits;
    TrimNothing(digits);
    assert TrimStart([32] + digits) == TrimStart(digits);
  }

  lemma OneLine(line: seq<byte>, value: seq<int>)
    requires COLON in line && Lower(Trim(line[..ColonAt(line).value])) == LENGTH_NAME
    requires Trim(line[ColonAt(line).value + 1..]) == value
    ensures LengthValues([line]) == [value]
  {
    assert LengthValues([line][..0]) == [];
  }

  lemma PrintedHeader(n: nat)
    requires 1 <= n <= MAX_BODY_BYTES
    ensures ContentLength(Header(n)) == Length(n)
  {
    var header, digits: seq<byte> := Header(n), Digits(n);
    HeaderShape(n);
    hide Header, Digits, Trim, Lower, LengthValues;
    NoLineBreak(header, CRLF);
    assert Lines(header) == [header];
    assert ColonAt(header) == Some(14);
    PrintedName();
    PrintedValue(digits);
    OneLine(header, digits);
  }

  lemma SeparatorAfterHeader(header: seq<byte>, rest: seq<byte>)
    requires forall i :: 0 <= i < |header| ==> header[i] != CR
    ensures IndexOf(header + SEPARATOR + rest, SEPARATOR, 0) == Some(|header|)
  {
    var buffer := header + SEPARATOR + rest;
    assert buffer[|header|..|header| + 4] == SEPARATOR;
    assert OccursAt(buffer, SEPARATOR, |header|);
    forall i: nat | i < |header| ensures !OccursAt(buffer, SEPARATOR, i) {
      assert i + 4 <= |buffer| ==> buffer[i..i + 4][0] == buffer[i];
      assert buffer[i] == header[i];
    }
  }

  lemma FrontFromParts<M>(buffer: seq<byte>, h: nat, n: nat, m: M, decode: seq<byte> -> Decoded<M>)
    requires IndexOf(buffer, SEPARATOR, 0) == Some(h) && h <= MAX_HEADER_BYTES
    requires ContentLength(Ascii(buffer[..h])) == Length(n) && h + 4 + n <= |buffer|
    requires decode(buffer[h + 4..h + 4 + n]) == Decoded(m)
    ensures FrontOf(buffer, decode) == Framed(m, h + 4 + n)
  {
    hide ContentLength, Ascii, IndexOf;
  }

  lemma ShortHeader(n: nat)
    requires n <= MAX_BODY_BYTES
    ensures |Header(n)| <= 24
  {
    HeaderShape(n);
    assert Pow10(8) == 10 * (10 * (10 * (10 * (10 * (10 * (10 * (10 * Pow10(0))))))));
    DigitsShort(n, 8);
  }

  lemma BodyAfterSeparator(header: seq<byte>, body: seq<byte>, rest: seq<byte>)
    ensures var buffer := header + SEPARATOR + body + rest;
            && buffer == header + SEPARATOR + (body + rest)
            && buffer[..|header|] == header
            && buffer[|header| + 4..|header| + 4 + |body|] == body
  {
  }

  /** The front of a printed message is that message, whatever follows it. */
  lemma PrintedFront<M>(body: seq<byte>, rest: seq<byte>, m: M, decode: seq<byte> -> Decoded<M>)
    requires 1 <= |body| <= MAX_BODY_BYTES && decode(body) == Decoded(m)
    ensures FrontOf(Encode(body) + rest, decode) == Framed(m, |Encode(body)|)
  {
    hide Header, ContentLength, FrontOf, IndexOf, Digits;
    var header := Header(|body|);
    HeaderShape(|body|);
    ShortHeader(|body|);
    PrintedHeader(|body|);
    BodyAfterSeparator(header, body, rest);
    SeparatorAfterHeader(header, body + rest);
    assert Ascii(header) == header;
    FrontFromParts(header + SEPARATOR + body + rest, |header|, |body|, m, decode);
  }

  /** Parsing the printed messages gives exactly the messages, with nothing left over. */
  lemma {:induction false} RoundTrip<M>(messages: seq<M>, encode: M -> seq<byte>, decode: seq<byte> -> Decoded<M>)
    requires forall i :: 0 <= i < |messages| ==>
      1 <= |encode(messages[i])| <= MAX_BODY_BYTES && decode(encode(messages[i])) == Decoded(messages[i])
    ensures Parse(EncodeAll(seq(|messages|, i requires 0 <= i < |messages| => encode(messages[i]))), decode) ==
            Parsed(messages, [])
    decreases |messages|
  {
    var bodies := seq(|messages|, i requires 0 <= i < |messages| => encode(messages[i]));
    if messages == [] {
      assert IndexOf([], SEPARATOR, 0).None?;
    } else {
      var first, rest := messages[0], messages[1..];
      assert bodies[1..] == seq(|rest|, i requires 0 <= i < |rest| => encode(rest[i]));
      RoundTrip(rest, encode, decode);
      var tail := EncodeAll(bodies[1..]);
      PrintedFront(bodies[0], tail, first, decode);
      assert (Encode(bodies[0]) + tail)[|Encode(bodies[0])|..] == tail;
      assert [first] + rest == messages;
    }
  }
}
