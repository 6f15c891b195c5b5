/** The length-framed read between an agent pod and the console
    (admin_console/agent_runtime.py): the pod writes a header line and a body in bounded
    pieces, the console takes the body only when all of it arrived.

    Text is ASCII, so that bytes and characters count the same. */
module FramedRead {
  import opened Options

  const FRAME_TAG := "KA-READ-1"
  const WRITE_CHUNK_BYTES := 65536

  // ---------------------------------------------------------------------------
  // Decimal numbers, as written and as read back

  predicate IsDigit(c: char) { '0' <= c <= '9' }

  function DigitChar(d: nat): (c: char)
    requires d < 10
    ensures IsDigit(c) && c as int - '0' as int == d
  {
    ('0' as int + d) as char
  }

  function Digits(n: nat): (s: string)
    ensures s != "" && forall c :: c in s ==> IsDigit(c)
  {
    if n < 10 then [DigitChar(n)] else Digits(n / 10) + [DigitChar(n % 10)]
  }

  predicate IsSpace(c: char)
    ensures IsSpace(c) <==> c as int in {9, 10, 11, 12, 13, 28, 29, 30, 31, 32}
  {
    c == ' ' || 9 <= c as int <= 13 || 28 <= c as int <= 31
  }

  function Strip(s: string): string {
    if s == "" then ""
    else if IsSpace(s[0]) then Strip(s[1..])
    else if IsSpace(s[|s| - 1]) then Strip(s[..|s| - 1])
    else s
  }

  /** Digits, with single underscores allowed between them. */
  function Unsigned(s: string): Option<nat> {
    if s == "" || !IsDigit(s[|s| - 1]) then None
    else
      var d := s[|s| - 1] as int - '0' as int;
      if |s| == 1 then Some(d)
      else
        var front := if s[|s| - 2] == '_' then s[..|s| - 2] else s[..|s| - 1];
        match Unsigned(front)
        case None => None
        case Some(v) => Some(10 * v + d)
  }

  /** The numbers `int` reads: surrounding blanks, a sign, digits and underscores. */
  function IntOf(s: string): Option<int> {
    var t := Strip(s);
    if t == "" then None
    else
      match Unsigned(if t[0] == '+' || t[0] == '-' then t[1..] else t)
      case None => None
      case Some(v) =>
        var size: int := v;
        Some(if t[0] == '-' then -size else size)
  }

  /** One more digit, after what was read before it. */
  function Digit(front: Option<nat>, d: char): Option<nat>
    requires IsDigit(d)
  {
    if front.None? then None else Some(10 * front.value + (d as int - '0' as int))
  }

  lemma UnsignedEnds(t: string)
    requires |t| >= 2 && IsDigit(t[|t| - 1])
    ensures Unsigned(t) == Digit(Unsigned(if t[|t| - 2] == '_' then t[..|t| - 2] else t[..|t| - 1]), t[|t| - 1])
  {
  }

  lemma LastDigit(s: string, d: char)
    requires s != "" && IsDigit(d)
    ensures s[|s| - 1] != '_' ==> Unsigned(s + [d]) == Digit(Unsigned(s), d)
    ensures Unsigned(s + ['_'] + [d]) == Digit(Unsigned(s), d)
  {
    hide Unsigned;
    var t, u := s + [d], s + ['_'] + [d];
    UnsignedEnds(t);
    UnsignedEnds(u);
    assert t[..|t| - 1] == s && t[|t| - 2] == s[|s| - 1];
    assert u[..|u| - 2] == s && u[|u| - 2] == '_';
  }

  /** A single underscore between two digits is skipped; it cannot start, end or double. */
  lemma UnderscoresAreSkipped(s: string, d: char)
    requires IsDigit(d)
    ensures s != "" && IsDigit(s[|s| - 1]) ==> Unsigned(s + ['_'] + [d]) == Unsigned(s + [d])
    ensures s == "" || !IsDigit(s[|s| - 1]) ==> Unsigned(s + ['_'] + [d]) == None
    ensures Unsigned(s + ['_']) == None
  {
    if s != "" {
      LastDigit(s, d);
    } else {
      var t := s + ['_'] + [d];
      assert |t| == 2 && t[0] == '_' && t[..0] == "";
    }
  }

  ghost predicate Blank(s: string) {
    forall c :: c in s ==> IsSpace(c)
  }

  lemma {:induction false} StripsAfter(t: string, b: string)
    requires Blank(b) && t != "" && !IsSpace(t[0]) && !IsSpace(t[|t| - 1])
    ensures Strip(t + b) == t
  {
    var s := t + b;
    if b == "" {
      assert s == t;
    } else {
      assert s[|s| - 1] in b && s[..|s| - 1] == t + b[..|b| - 1];
      StripsAfter(t, b[..|b| - 1]);
    }
  }

  lemma {:induction false} StripsBlank(b: string)
    requires Blank(b)
    ensures Strip(b) == ""
  {
    if b != "" { StripsBlank(b[1..]); }
  }

  /** Text with blanks around it is stripped to the text. */
  lemma {:induction false} StripsTo(a: string, t: string, b: string)
    requires Blank(a) && Blank(b) && (t == "" || !(IsSpace(t[0]) || IsSpace(t[|t| - 1])))
    ensures Strip(a + t + b) == t
  {
    var s := a + t + b;
    if a != "" {
      assert s[0] in a && s[1..] == a[1..] + t + b;
      StripsTo(a[1..], t, b);
    } else if t == "" {
      assert s == b;
      StripsBlank(b);
    } else {
      assert s == t + b;
      StripsAfter(t, b);
    }
  }

  /** A number reads the same with blanks around it; blanks alone are no number. */
  lemma IntOfPadded(a: string, t: string, b: string)
    requires Blank(a) && Blank(b) && (t == "" || !(IsSpace(t[0]) || IsSpace(t[|t| - 1])))
    ensures IntOf(a + t + b) == IntOf(t) && IntOf("") == None
  {
    hide Unsigned;
    StripsTo(a, t, b);
    assert "" + t + "" == t;
    assert Blank("");
    StripsTo("", t, "");
  }

  /** A length reads back through a sign. */
  lemma SignedReadsBack(n: nat)
    ensures IntOf("+" + Digits(n)) == Some(n)
    ensures var size: int := n; IntOf("-" + Digits(n)) == Some(-size)
  {
    hide Unsigned;
    var s := Digits(n);
    DigitsReadBack(n);
    assert s[|s| - 1] in s;
    assert ("+" + s)[1..] == s && ("-" + s)[1..] == s;
  }

  lemma {:induction false} DigitsReadBack(n: nat)
    ensures Unsigned(Digits(n)) == Some(n)
  {
    if n >= 10 {
      DigitsReadBack(n / 10);
      var s := Digits(n);
      assert s[..|s| - 1] == Digits(n / 10);
      assert s[|s| - 2] in Digits(n / 10);
    }
  }

  lemma LengthReadsBack(n: nat)
    ensures IntOf(Digits(n)) == Some(n)
  {
    DigitsReadBack(n);
    var s := Digits(n);
    assert s[0] in s && s[|s| - 1] in s;
  }

  // ---------------------------------------------------------------------------
  // Writing

  function Header(length: nat): string {
    FRAME_TAG + " " + Digits(length) + "\n"
  }

  function Frame(data: string): string {
    Header(|data|) + data
  }

  function Concat(pieces: seq<string>): string {
    if pieces == [] then "" else Concat(pieces[..|pieces| - 1]) + pieces[|pieces| - 1]
  }

  /** A pod stream that may keep only the start of a write larger than one chunk. */
  function Delivered(pieces: seq<string>): string {
    if pieces == [] then ""
    else
      var last := pieces[|pieces| - 1];
      Delivered(pieces[..|pieces| - 1]) + if |last| > WRITE_CHUNK_BYTES then last[..WRITE_CHUNK_BYTES] else last
  }

  lemma LargeWriteIsCut(piece: string)
    requires |piece| > 65536
    ensures Delivered([piece]) == piece[..65536]
  {
    assert [piece][..0] == [];
  }

  /** `emit`: each write takes some of the chunk it is offered, at least one byte. */
  method Emit(data: string) returns (pieces: seq<string>)
    ensures Concat(pieces) == Frame(data)
    ensures Delivered(pieces) == Frame(data)
    ensures forall p :: p in pieces ==> 0 < |p| <= 65536
  {
    var out := Frame(data);
    pieces := [];
    while out != ""
      invariant Concat(pieces) + out == Frame(data)
      invariant Delivered(pieces) == Concat(pieces)
      invariant forall p :: p in pieces ==> 0 < |p| <= WRITE_CHUNK_BYTES
      decreases |out|
    {
      var offered := if |out| > WRITE_CHUNK_BYTES then out[..WRITE_CHUNK_BYTES] else out;
      var written: nat :| 0 < written <= |offered|;
      ghost var before := pieces;
      pieces := pieces + [out[..written]];
      assert pieces[..|pieces| - 1] == before;
      assert out == out[..written] + out[written..];
      out := out[written..];
    }
  }

  // ---------------------------------------------------------------------------
  // Reading

  /** What is before and after the first `c`, and whether there is one. */
  function Partition(s: string, c: char): (string, bool, string) {
    if s == "" then ("", false, "")
    else if s[0] == c then ("", true, s[1..])
    else
      var (before, found, after) := Partition(s[1..], c);
      ([s[0]] + before, found, after)
  }

  lemma {:induction false} PartitionAt(a: string, c: char, b: string)
    requires c !in a
    ensures Partition(a + [c] + b, c) == (a, true, b)
  {
    if a == "" {
      assert a + [c] + b == [c] + b;
      assert ([c] + b)[1..] == b;
    } else {
      PartitionAt(a[1..], c, b);
      assert (a + [c] + b)[1..] == a[1..] + [c] + b;
      assert [a[0]] + a[1..] == a;
    }
  }

  lemma {:induction false} PartitionNone(a: string, c: char)
    requires c !in a
    ensures Partition(a, c) == (a, false, "")
  {
    if a != "" {
      PartitionNone(a[1..], c);
      assert [a[0]] + a[1..] == a;
    }
  }

  lemma {:induction false} PartitionRejoins(s: string, c: char)
    ensures var (before, found, after) := Partition(s, c);
      && c !in before
      && (found ==> s == before + [c] + after)
      && (!found ==> s == before && after == "")
  {
    if s != "" && s[0] != c {
      PartitionRejoins(s[1..], c);
    }
  }

  /** The length a header promises and the body after it, when the text is framed. */
  function Unframe(stdout: string): Option<(int, string)> {
    var (header, newline, body) := Partition(stdout, '\n');
    var (tag, _, length) := Partition(header, ' ');
    if !newline || tag != FRAME_TAG then None
    else
      match IntOf(length)
      case None => None
      case Some(expected) => Some((expected, body))
  }

  datatype Error = CutShort(received: nat, expected: int) | CommandFailed | InvalidData

  datatype Result<T> = Ok(value: T) | Err(error: Error)

  /** What a JSON reader makes of a text. */
  datatype Json<T> = NotJson | Other | Object(fields: T)

  /** No JSON text is empty or starts with the tag's first letter. */
  ghost predicate ReadsJson<T(!new)>(loads: string -> Json<T>) {
    loads("").NotJson? && forall s: string :: s != "" && s[0] == 'K' ==> loads(s).NotJson?
  }

  function JsonResult<T>(loads: string -> Json<T>, succeeded: bool, stdout: string): Result<T> {
    if !succeeded then Err(CommandFailed)
    else if loads(stdout).Object? then Ok(loads(stdout).fields) else Err(InvalidData)
  }

  function ParseRead<T>(loads: string -> Json<T>, succeeded: bool, stdout: string): Result<T> {
    match Unframe(stdout)
    case None => JsonResult(loads, succeeded, stdout)
    case Some((expected, body)) =>
      if |body| < expected then Err(CutShort(|body|, expected))
      else JsonResult(loads, succeeded, if |body| == expected then body else stdout)
  }

  // ---------------------------------------------------------------------------

  lemma HeaderLine(n: nat)
    ensures '\n' !in FRAME_TAG + " " + Digits(n)
    ensures Partition(FRAME_TAG + " " + Digits(n), ' ') == (FRAME_TAG, true, Digits(n))
  {
    forall c | c in FRAME_TAG + " " + Digits(n) ensures c != '\n' {
      if c in Digits(n) { assert IsDigit(c); }
    }
    PartitionAt(FRAME_TAG, ' ', Digits(n));
  }

  lemma HeaderUnframes(n: nat, body: string)
    ensures Unframe(Header(n) + body) == Some((n, body))
  {
    HeaderLine(n);
    var line := FRAME_TAG + " " + Digits(n);
    PartitionAt(line, '\n', body);
    assert Header(n) + body == line + ['\n'] + body;
    LengthReadsBack(n);
  }

  /** The whole frame reads back as the body, whatever the body is. */
  lemma FrameRoundTrip<T>(loads: string -> Json<T>, succeeded: bool, data: string)
    ensures ParseRead(loads, succeeded, Frame(data)) == JsonResult(loads, succeeded, data)
  {
    HeaderUnframes(|data|, data);
  }

  /** Every frame that lost its end is refused, and past its header by name. */
  lemma CutFrameIsRefused<T(!new)>(loads: string -> Json<T>, succeeded: bool, data: string, k: nat)
    requires ReadsJson(loads) && k < |Frame(data)|
    ensures ParseRead(loads, succeeded, Frame(data)[..k]).Err?
    ensures k >= |Header(|data|)| ==>
      ParseRead(loads, succeeded, Frame(data)[..k]) == Err(CutShort(k - |Header(|data|)|, |data|))
  {
    var header := Header(|data|);
    var part := Frame(data)[..k];
    if k >= |header| {
      assert part == header + data[..k - |header|];
      HeaderUnframes(|data|, data[..k - |header|]);
    } else {
      var line := FRAME_TAG + " " + Digits(|data|);
      HeaderLine(|data|);
      assert part == line[..k];
      PartitionNone(part, '\n');
      assert k > 0 ==> part[0] == FRAME_TAG[0];
    }
  }

  /** Framed text starts with the tag. */
  lemma UnframedStart(stdout: string)
    requires Unframe(stdout).Some?
    ensures "KA-READ-1 " <= stdout && '\n' in stdout
  {
    var (header, newline, body) := Partition(stdout, '\n');
    PartitionRejoins(stdout, '\n');
    PartitionRejoins(header, ' ');
    assert header[0] == FRAME_TAG[0];
  }

  /** A read is accepted exactly when the command succeeded and either the text is framed
      and its body, of exactly the promised length, is an object, or the text is not framed
      and is itself an object: a length that is off either way is never accepted. */
  lemma AcceptedIff<T(!new)>(loads: string -> Json<T>, succeeded: bool, stdout: string, fields: T)
    requires ReadsJson(loads)
    ensures ParseRead(loads, succeeded, stdout) == Ok(fields) <==>
      && succeeded
      && match Unframe(stdout)
         case Some((expected, body)) => |body| == expected && loads(body) == Object(fields)
         case None => loads(stdout) == Object(fields)
  {
    if Unframe(stdout).Some? { UnframedStart(stdout); }
  }
}
