/** The message pipeline of the chat plugin: the per-minute request counter,
    the text taken from an incoming group message, the random engagement
    gate, the decoding of `@<digits> ` mentions in a reply from the backend,
    and the two history records the group-message handler writes.

    The clock reading (nanoseconds since the Unix epoch) and the draw of
    `rand.Intn(100)` are parameters. */
module ChatPipeline {
  import opened Text
  import opened ChatSession
  import ChatContext

  // ---------------------------------------------------------------------
  // Rate limiting

  /** `time.Minute` in nanoseconds. */
  const Minute: int := 60_000_000_000

  /** Go's zero `time.Time` (January 1 of year 1, UTC) in nanoseconds since
      the Unix epoch: the period start of a counter that never ran. */
  const ZeroTime: int := -62_135_596_800_000_000_000

  /** The configured requests per minute unless overridden. */
  const DefaultRpm: int := 20

  /** The counter's three fields as a value. */
  datatype Counter = Counter(requestCount: int, periodStart: int, rpm: int)

  /** The counter after one request at clock reading now: a new period
      starts when more than a minute has passed, then the request counts. */
  function Tick(c: Counter, now: int): Counter
  {
    var expired := now - c.periodStart > Minute;
    Counter((if expired then 0 else c.requestCount) + 1, if expired then now else c.periodStart, c.rpm)
  }

  /** The answer of a request that left the counter at c. */
  predicate Admitted(c: Counter)
  {
    c.requestCount <= c.rpm
  }

  /** The answers to requests at the given clock readings, in order. */
  function Answers(c: Counter, nows: seq<int>): (r: seq<bool>)
    ensures |r| == |nows|
    decreases |nows|
  {
    if nows == [] then [] else [Admitted(Tick(c, nows[0]))] + Answers(Tick(c, nows[0]), nows[1..])
  }

  /** Inside the current period the k-th further request is admitted exactly
      when the count it brings the counter to is at most rpm. */
  lemma {:induction false} WithinPeriod(c: Counter, nows: seq<int>)
    requires forall i :: 0 <= i < |nows| ==> nows[i] - c.periodStart <= Minute
    ensures forall k :: 0 <= k < |nows| ==> Answers(c, nows)[k] == (c.requestCount + k + 1 <= c.rpm)
    decreases |nows|
  {
    if nows != [] {
      var c' := Tick(c, nows[0]);
      assert c' == c.(requestCount := c.requestCount + 1);
      WithinPeriod(c', nows[1..]);
      assert Answers(c, nows) == [Admitted(c')] + Answers(c', nows[1..]);
    }
  }

  /** A request more than a minute after the period start opens a period
      in which only the first rpm requests, this one included, are
      admitted. */
  lemma PeriodQuota(c: Counter, nows: seq<int>)
    requires |nows| >= 1 && nows[0] - c.periodStart > Minute
    requires forall i :: 0 < i < |nows| ==> nows[i] - nows[0] <= Minute
    ensures forall k :: 0 <= k < |nows| ==> Answers(c, nows)[k] == (k + 1 <= c.rpm)
  {
    var c' := Tick(c, nows[0]);
    assert c' == Counter(1, nows[0], c.rpm);
    WithinPeriod(c', nows[1..]);
    assert Answers(c, nows) == [Admitted(c')] + Answers(c', nows[1..]);
  }

  class RpmCounter {
    var requestCount: int
    var periodStartTime: int
    var rpm: int

    function State(): Counter
      reads this
    {
      Counter(requestCount, periodStartTime, rpm)
    }

    /** The zero counter with its limit set, as the plugin's initialisation
        leaves it. */
    constructor (rpm: int)
      ensures State() == Counter(0, ZeroTime, rpm)
    {
      requestCount := 0;
      periodStartTime := ZeroTime;
      this.rpm := rpm;
    }

    /** Counts one request at clock reading now and says whether it is
        within the limit. */
    method Require(now: int) returns (ok: bool)
      modifies this
      ensures State() == Tick(old(State()), now)
      ensures ok == Admitted(State())
    {
      if now - periodStartTime > Minute {
        requestCount := 0;
        periodStartTime := now;
      }
      requestCount := requestCount + 1;
      ok := requestCount <= rpm;
    }
  }

  // ---------------------------------------------------------------------
  // The text of an incoming message

  /** A value of a segment's data map, of one of the dynamic types the
      model distinguishes; VNil is a missing key. */
  datatype Value = VString(str: string) | VInt64(num: int) | VNil

  datatype Segment = Segment(kind: string, data: map<string, Value>)

  /** `m.Data[key]`: the zero interface for a missing key. */
  function Field(m: Segment, key: string): Value
  {
    if key in m.data then m.data[key] else VNil
  }

  /** Go's `%s` verb on an interface value. */
  function FormatS(v: Value): string
  {
    match v
    case VString(s) => s
    case VInt64(n) => "%!s(int64=" + IntToDecimal(n) + ")"
    case VNil => "%!s(<nil>)"
  }

  /** Extracted text, or the panic of the `.(string)` type assertion. */
  datatype Extracted = Plain(text: string) | TypeAssertionPanic

  /** What one segment adds: a mention of anyone but the bot itself (an
      int64 equal to the self id; any other dynamic type never equals it)
      becomes `@<qq> `, a text segment its text, anything else nothing. */
  function Piece(m: Segment, selfId: int): Extracted
  {
    if m.kind == "at" then
      if Field(m, "qq") == VInt64(selfId) then Plain("") else Plain("@" + FormatS(Field(m, "qq")) + " ")
    else if m.kind == "text" then
      if Field(m, "text").VString? then Plain(Field(m, "text").str) else TypeAssertionPanic
    else Plain("")
  }

  /** a, then b: the first panic stops the extraction. */
  function Then(a: Extracted, b: Extracted): Extracted
  {
    if a.TypeAssertionPanic? then a else if b.TypeAssertionPanic? then b else Plain(a.text + b.text)
  }

  lemma ThenAssoc(a: Extracted, b: Extracted, c: Extracted)
    ensures Then(a, Then(b, c)) == Then(Then(a, b), c)
  {
    if a.Plain? && b.Plain? && c.Plain? {
      AppendAssoc(a.text, b.text, c.text);
    }
  }

  /** The text of a message, segment after segment. */
  function ExtractText(ms: seq<Segment>, selfId: int): Extracted
    decreases |ms|
  {
    if ms == [] then Plain("") else Then(ExtractText(ms[..|ms| - 1], selfId), Piece(ms[|ms| - 1], selfId))
  }

  /** Extraction works segment-wise: the text of a + b is that of a
      followed by that of b. */
  lemma {:induction false} ExtractAppend(a: seq<Segment>, b: seq<Segment>, selfId: int)
    ensures ExtractText(a + b, selfId) == Then(ExtractText(a, selfId), ExtractText(b, selfId))
    decreases |b|
  {
    if b == [] {
      assert a + b == a;
    } else {
      var b', m := b[..|b| - 1], b[|b| - 1];
      assert (a + b)[..|a + b| - 1] == a + b';
      assert (a + b)[|a + b| - 1] == m;
      ExtractAppend(a, b', selfId);
      ThenAssoc(ExtractText(a, selfId), ExtractText(b', selfId), Piece(m, selfId));
    }
  }

  /** Extraction panics exactly when some text segment's text is not a
      string. */
  lemma {:induction false} ExtractPanics(ms: seq<Segment>, selfId: int)
    ensures ExtractText(ms, selfId).TypeAssertionPanic? <==>
      exists i :: 0 <= i < |ms| && ms[i].kind == "text" && !Field(ms[i], "text").VString?
    decreases |ms|
  {
    if ms != [] {
      var p := ms[..|ms| - 1];
      ExtractPanics(p, selfId);
      if exists i :: 0 <= i < |p| && p[i].kind == "text" && !Field(p[i], "text").VString? {
        var i :| 0 <= i < |p| && p[i].kind == "text" && !Field(p[i], "text").VString?;
        assert ms[i] == p[i];
      }
      if exists i :: 0 <= i < |ms| && ms[i].kind == "text" && !Field(ms[i], "text").VString? {
        var i :| 0 <= i < |ms| && ms[i].kind == "text" && !Field(ms[i], "text").VString?;
        if i < |p| {
          assert p[i] == ms[i];
        }
      }
    }
  }

  /** A mention of the bot itself and a segment of any other kind than
      mention or text leave the text as it is. */
  lemma Vanishes(a: seq<Segment>, m: Segment, b: seq<Segment>, selfId: int)
    requires (m.kind == "at" && Field(m, "qq") == VInt64(selfId)) || (m.kind != "at" && m.kind != "text")
    ensures ExtractText(a + [m] + b, selfId) == ExtractText(a + b, selfId)
  {
    ExtractAppend(a + [m], b, selfId);
    ExtractAppend(a, [m], selfId);
    ExtractAppend(a, b, selfId);
    assert [m][..0] == [];
    assert ExtractText([m], selfId) == Then(Plain(""), Plain("")) == Plain("");
    var x := ExtractText(a, selfId);
    if x.Plain? {
      AppendEmpty(x.text);
    }
    assert Then(x, Plain("")) == x;
  }

  /** A panic in a prefix is a panic of the whole message. */
  lemma PanicSticks(ms: seq<Segment>, k: nat, selfId: int)
    requires k <= |ms| && ExtractText(ms[..k], selfId).TypeAssertionPanic?
    ensures ExtractText(ms, selfId).TypeAssertionPanic?
  {
    ExtractAppend(ms[..k], ms[k..], selfId);
    assert ms[..k] + ms[k..] == ms;
  }

  lemma ExtractStep(ms: seq<Segment>, i: nat, selfId: int)
    requires i < |ms|
    ensures ExtractText(ms[..i + 1], selfId) == Then(ExtractText(ms[..i], selfId), Piece(ms[i], selfId))
  {
    assert ms[..i + 1][..i] == ms[..i];
  }

  /** The extraction loop of the handler. */
  method CollectText(ms: seq<Segment>, selfId: int) returns (r: Extracted)
    ensures r == ExtractText(ms, selfId)
  {
    var text := "";
    var i := 0;
    while i < |ms|
      invariant 0 <= i <= |ms|
      invariant ExtractText(ms[..i], selfId) == Plain(text)
    {
      var m := ms[i];
      ExtractStep(ms, i, selfId);
      AppendEmpty(text);
      if m.kind == "at" {
        if Field(m, "qq") != VInt64(selfId) {
          text := text + ("@" + FormatS(Field(m, "qq")) + " ");
        }
      } else if m.kind == "text" {
        if !Field(m, "text").VString? {
          PanicSticks(ms, i + 1, selfId);
          return TypeAssertionPanic;
        }
        text := text + Field(m, "text").str;
      }
      i := i + 1;
    }
    assert ms[..i] == ms;
    r := Plain(text);
  }

  // ---------------------------------------------------------------------
  // The engagement gate

  /** Percent chance of a reply to a message not directed at the bot. */
  function Threshold(historyLen: int): int
  {
    if historyLen < 5 then 10 else 60
  }

  /** A message directed at the bot always gets a reply; any other one when
      the draw from [0, 100) is below the threshold for the history length,
      counting the message itself. */
  predicate Engages(toMe: bool, historyLen: int, draw: int)
  {
    toMe || draw < Threshold(historyLen)
  }

  /** The draws in [0, n). */
  function Draws(n: nat): (r: set<int>)
    ensures forall d :: d in r <==> 0 <= d < n
    ensures |r| == n
  {
    if n == 0 then {} else Draws(n - 1) + {n - 1}
  }

  /** Out of the 100 possible draws, all engage a message directed at the
      bot, 10 engage another one while the history is short (under 5
      records), and 60 once it is longer. */
  lemma EngagingDraws(toMe: bool, historyLen: int)
    ensures |set d | 0 <= d < 100 && Engages(toMe, historyLen, d)| ==
      if toMe then 100 else if historyLen < 5 then 10 else 60
  {
    var n := if toMe then 100 else Threshold(historyLen);
    assert (set d | 0 <= d < 100 && Engages(toMe, historyLen, d)) == Draws(n);
  }

  // ---------------------------------------------------------------------
  // Mentions in a reply

  /** A segment of the outgoing message. */
  datatype OutSegment = PlainText(text: string) | AtSomeone(qq: int)

  /** End of the run of digits starting at p. */
  function DigitEnd(s: string, p: nat): (e: nat)
    requires p <= |s|
    ensures p <= e <= |s|
    ensures forall j :: p <= j < e ==> IsDigit(s[j])
    ensures e < |s| ==> !IsDigit(s[e])
    decreases |s| - p
  {
    if p == |s| || !IsDigit(s[p]) then p else DigitEnd(s, p + 1)
  }

  /** End of the line starting at p: the first newline from p, or |s|. */
  function LineEnd(s: string, p: nat): (e: nat)
    requires p <= |s|
    ensures p <= e <= |s|
    ensures forall j :: p <= j < e ==> s[j] != '\n'
    ensures e < |s| ==> s[e] == '\n'
    decreases |s| - p
  {
    if p == |s| || s[p] == '\n' then p else LineEnd(s, p + 1)
  }

  /** `([0-9]+) ` matches at p: the greedy digit run from p is non-empty
      and followed by a space (a shorter run is followed by a digit). */
  predicate MatchAt(s: string, p: nat)
    requires p <= |s|
  {
    p < |s| && IsDigit(s[p]) && DigitEnd(s, p) < |s| && s[DigitEnd(s, p)] == ' '
  }

  /** The leftmost match position at or after p. */
  function LeftmostMatch(s: string, p: nat): (r: Option<nat>)
    requires p <= |s|
    ensures r.Some? ==> p <= r.value < |s| && MatchAt(s, r.value)
    ensures r.Some? ==> forall j :: p <= j < r.value ==> !MatchAt(s, j)
    ensures r.None? ==> forall j :: p <= j <= |s| ==> !MatchAt(s, j)
    decreases |s| - p
  {
    if p == |s| then None else if MatchAt(s, p) then Some(p) else LeftmostMatch(s, p + 1)
  }

  /** The two capture groups of a match. */
  datatype Groups = Groups(digits: string, rest: string)

  /** `FindStringSubmatch` of the unanchored `([0-9]+) (.*)`, where `.`
      does not match a newline: the digits of the leftmost match and the
      rest of its line after the space. */
  function Submatch(s: string): (r: Option<Groups>)
    ensures r.None? <==> forall j :: 0 <= j <= |s| ==> !MatchAt(s, j)
    ensures r.Some? ==> r.value.digits != "" && AllDigits(r.value.digits) && '\n' !in r.value.rest
  {
    match LeftmostMatch(s, 0)
    case None => None
    case Some(p) =>
      var e := DigitEnd(s, p);
      Some(Groups(s[p..e], s[e + 1..LineEnd(s, e + 1)]))
  }

  /** The segments one piece after an `@` becomes, as written: a mention
      and the captured rest, or the piece kept with its `@`. */
  function DecodePiece(s: string): seq<OutSegment>
  {
    match Submatch(s)
    case None => [PlainText("@" + s)]
    case Some(g) => [AtSomeone(ParseDecimal(g.digits)), PlainText(g.rest)]
  }

  /** The text before the first `@`, then each later piece decoded. */
  function DecodeWith(reply: string, piece: string -> seq<OutSegment>): seq<OutSegment>
  {
    var parts := Split(reply, '@');
    [PlainText(parts[0])] + DecodePieces(parts[1..], piece)
  }

  function DecodePieces(ps: seq<string>, piece: string -> seq<OutSegment>): seq<OutSegment>
    decreases |ps|
  {
    if ps == [] then [] else DecodePieces(ps[..|ps| - 1], piece) + piece(ps[|ps| - 1])
  }

  /** The reply's segments, as the source decodes them. */
  function DecodeReply(reply: string): seq<OutSegment>
  {
    DecodeWith(reply, DecodePiece)
  }

  lemma PiecesStep(ps: seq<string>, i: nat, piece: string -> seq<OutSegment>)
    requires 1 <= i < |ps|
    ensures DecodePieces(ps[1..i + 1], piece) == DecodePieces(ps[1..i], piece) + piece(ps[i])
  {
    assert ps[1..i + 1][..i - 1] == ps[1..i];
  }

  lemma SegmentsAssoc(a: seq<OutSegment>, b: seq<OutSegment>, c: seq<OutSegment>)
    ensures (a + b) + c == a + (b + c)
  {
  }

  /** The decoding loop of the reply action. */
  method DecodeMentions(reply: string) returns (msg: seq<OutSegment>)
    ensures msg == DecodeReply(reply)
  {
    var splitByAt := Split(reply, '@');
    msg := [PlainText(splitByAt[0])];
    var i := 1;
    while i < |splitByAt|
      invariant 1 <= i <= |splitByAt|
      invariant msg == [PlainText(splitByAt[0])] + DecodePieces(splitByAt[1..i], DecodePiece)
    {
      var s := splitByAt[i];
      var matches := Submatch(s);
      var decoded;
      if matches.None? {
        decoded := [PlainText("@" + s)];
      } else {
        decoded := [AtSomeone(ParseDecimal(matches.value.digits)), PlainText(matches.value.rest)];
      }
      assert decoded == DecodePiece(s);
      PiecesStep(splitByAt, i, DecodePiece);
      SegmentsAssoc([PlainText(splitByAt[0])], DecodePieces(splitByAt[1..i], DecodePiece), decoded);
      msg := msg + decoded;
      i := i + 1;
    }
    assert splitByAt[1..i] == splitByAt[1..];
  }

  /** A reply with one `@` is the text before it, then its piece decoded. */
  lemma OneAt(a: string, b: string, piece: string -> seq<OutSegment>)
    requires '@' !in a && '@' !in b
    ensures DecodeWith(a + "@" + b, piece) == [PlainText(a)] + piece(b)
  {
    SplitJoin([a, b], '@');
    assert Join([a, b], "@") == a + "@" + b;
    var ps := Split(a + "@" + b, '@')[1..];
    assert ps == [b] && ps[..0] == [];
    assert DecodePieces(ps, piece) == DecodePieces([], piece) + piece(b);
    assert [] + piece(b) == piece(b);
  }

  /** A reply starting with its only `@`. */
  lemma LeadingAt(b: string, piece: string -> seq<OutSegment>)
    requires '@' !in b
    ensures DecodeWith("@" + b, piece) == [PlainText("")] + piece(b)
  {
    OneAt("", b, piece);
    AppendEmpty("@");
  }

  /** A reply without `@` is sent as exactly its text. */
  lemma NoMentionVerbatim(reply: string)
    requires '@' !in reply
    ensures DecodeReply(reply) == [PlainText(reply)]
  {
    SplitAbsent(reply, '@');
  }

  /** The text before the first `@` leads the message verbatim. */
  lemma LeadingTextVerbatim(reply: string)
    ensures DecodeReply(reply)[0] == PlainText(reply[..IndexOf(reply, '@')])
  {
    SplitFirst(reply, '@');
  }

  /** A mention as a reply writes it: the id, a space, and the text after. */
  datatype Mention = Mention(qq: nat, text: string)

  function MentionText(m: Mention): string
  {
    NatToDecimal(m.qq) + " " + m.text
  }

  /** Text without `@`, then `@<id> <text>` for each mention. */
  function Encode(pre: string, ms: seq<Mention>): string
  {
    Join([pre] + seq(|ms|, i requires 0 <= i < |ms| => MentionText(ms[i])), "@")
  }

  /** The segments a reply written by Encode is meant to become. */
  function Intended(ms: seq<Mention>): seq<OutSegment>
    decreases |ms|
  {
    if ms == [] then [] else Intended(ms[..|ms| - 1]) + [AtSomeone(ms[|ms| - 1].qq), PlainText(ms[|ms| - 1].text)]
  }

  /** A piece decoder that decodes every admissible mention as intended
      decodes every reply written by Encode as intended. */
  lemma {:induction false} RoundTripWith(pre: string, ms: seq<Mention>, piece: string -> seq<OutSegment>)
    requires '@' !in pre
    requires forall i :: 0 <= i < |ms| ==> '@' !in ms[i].text
    requires forall i :: 0 <= i < |ms| ==> piece(MentionText(ms[i])) == [AtSomeone(ms[i].qq), PlainText(ms[i].text)]
    ensures DecodeWith(Encode(pre, ms), piece) == [PlainText(pre)] + Intended(ms)
  {
    var texts := seq(|ms|, i requires 0 <= i < |ms| => MentionText(ms[i]));
    var parts := [pre] + texts;
    forall i | 0 <= i < |parts|
      ensures '@' !in parts[i]
    {
      if i > 0 {
        NoNonDigitInDecimal(ms[i - 1].qq, '@');
      }
    }
    SplitJoin(parts, '@');
    assert parts[1..] == texts;
    PiecesIntended(ms, piece);
  }

  lemma {:induction false} PiecesIntended(ms: seq<Mention>, piece: string -> seq<OutSegment>)
    requires forall i :: 0 <= i < |ms| ==> piece(MentionText(ms[i])) == [AtSomeone(ms[i].qq), PlainText(ms[i].text)]
    ensures DecodePieces(seq(|ms|, i requires 0 <= i < |ms| => MentionText(ms[i])), piece) == Intended(ms)
    decreases |ms|
  {
    if ms != [] {
      var texts := seq(|ms|, i requires 0 <= i < |ms| => MentionText(ms[i]));
      var p := ms[..|ms| - 1];
      assert texts[..|texts| - 1] == seq(|p|, i requires 0 <= i < |p| => MentionText(p[i]));
      PiecesIntended(p, piece);
    }
  }

  /** The digit run from p ends at the first non-digit q. */
  lemma {:induction false} DigitEndAt(s: string, p: nat, q: nat)
    requires p <= q < |s| && !IsDigit(s[q])
    requires forall j :: p <= j < q ==> IsDigit(s[j])
    ensures DigitEnd(s, p) == q
    decreases q - p
  {
    if p < q {
      DigitEndAt(s, p + 1, q);
    }
  }

  /** The line from p ends at the first newline q, or at q == |s|. */
  lemma {:induction false} LineEndAt(s: string, p: nat, q: nat)
    requires p <= q <= |s|
    requires q < |s| ==> s[q] == '\n'
    requires forall j :: p <= j < q ==> s[j] != '\n'
    ensures LineEnd(s, p) == q
    decreases q - p
  {
    if p < q {
      LineEndAt(s, p + 1, q);
    }
  }

  /** Where the parts of `x + <id> <text> + u` lie, when x holds no digit
      and u starts a new line. */
  lemma MentionLayout(s: string, x: string, m: Mention, u: string)
    requires s == x + MentionText(m) + u
    requires forall j :: 0 <= j < |x| ==> !IsDigit(x[j])
    requires '\n' !in m.text
    requires u == "" || u[0] == '\n'
    ensures var d := NatToDecimal(m.qq);
      var p, e := |x|, |x| + |d|;
      var f := e + 1 + |m.text|;
      && p < e < |s| && e + 1 <= f <= |s|
      && (forall j :: 0 <= j < p ==> !IsDigit(s[j]))
      && (forall j :: p <= j < e ==> IsDigit(s[j]))
      && s[e] == ' '
      && (forall j :: e + 1 <= j < f ==> s[j] != '\n')
      && (f < |s| ==> s[f] == '\n')
      && s[p..e] == d && s[e + 1..f] == m.text
  {
    var d := NatToDecimal(m.qq);
    var p, e := |x|, |x| + |d|;
    var f := e + 1 + |m.text|;
    DecimalDigits(m.qq);
    forall j | 0 <= j < p
      ensures !IsDigit(s[j])
    {
      assert s[j] == x[j];
    }
    forall j | p <= j < e
      ensures IsDigit(s[j])
    {
      assert s[j] == d[j - p];
    }
    forall j | e + 1 <= j < f
      ensures s[j] != '\n'
    {
      assert s[j] == m.text[j - e - 1];
    }
  }

  /** As written, a piece in which no digit comes before position p, a
      digit run [p, e) is followed by a space, and the line after it ends at
      f decodes as the mention of those digits followed by that line. */
  lemma DecodePieceAt(s: string, p: nat, e: nat, f: nat, d: string, t: string)
    requires p < e < |s| && e + 1 <= f <= |s|
    requires s[p..e] == d && s[e + 1..f] == t
    requires forall j :: 0 <= j < p ==> !IsDigit(s[j])
    requires forall j :: p <= j < e ==> IsDigit(s[j])
    requires s[e] == ' '
    requires forall j :: e + 1 <= j < f ==> s[j] != '\n'
    requires f < |s| ==> s[f] == '\n'
    ensures AllDigits(d)
    ensures DecodePiece(s) == [AtSomeone(ParseDecimal(d)), PlainText(t)]
  {
    DigitEndAt(s, p, e);
    assert MatchAt(s, p);
    assert LeftmostMatch(s, 0) == Some(p);
    LineEndAt(s, e + 1, f);
  }

  /** As written, a piece holding a mention after text without digits and
      before a line end decodes as the mention alone: the text before and
      the lines after are dropped. */
  lemma PieceAsWritten(s: string, x: string, m: Mention, u: string)
    requires s == x + MentionText(m) + u
    requires forall j :: 0 <= j < |x| ==> !IsDigit(x[j])
    requires '\n' !in m.text
    requires u == "" || u[0] == '\n'
    ensures DecodePiece(s) == [AtSomeone(m.qq), PlainText(m.text)]
  {
    var d := NatToDecimal(m.qq);
    var p, e := |x|, |x| + |d|;
    ParseNatToDecimal(m.qq);
    MentionLayout(s, x, m, u);
    DecodePieceAt(s, p, e, e + 1 + |m.text|, d, m.text);
  }

  /** As written, a piece `<id> <text>` decodes as intended when the text
      holds no newline. */
  lemma OnePieceAsWritten(m: Mention)
    requires '\n' !in m.text
    ensures DecodePiece(MentionText(m)) == [AtSomeone(m.qq), PlainText(m.text)]
  {
    AppendEmpty(MentionText(m));
    PieceAsWritten(MentionText(m), "", m, "");
  }

  /** As written, replies of mentions whose texts hold neither `@` nor a
      newline decode as intended. */
  lemma RoundTrip(pre: string, ms: seq<Mention>)
    requires '@' !in pre
    requires forall i :: 0 <= i < |ms| ==> '@' !in ms[i].text && '\n' !in ms[i].text
    ensures DecodeReply(Encode(pre, ms)) == [PlainText(pre)] + Intended(ms)
  {
    forall i | 0 <= i < |ms|
      ensures DecodePiece(MentionText(ms[i])) == [AtSomeone(ms[i].qq), PlainText(ms[i].text)]
    {
      OnePieceAsWritten(ms[i]);
    }
    RoundTripWith(pre, ms, DecodePiece);
  }

  /** Without a digit after it, an `@` is kept where it stands: the piece
      after it is sent whole, with the `@` (an e-mail address, say). */
  lemma AddressKept(user: string, host: string)
    requires '@' !in user && '@' !in host
    requires forall j :: 0 <= j < |host| ==> !IsDigit(host[j])
    ensures DecodeReply(user + "@" + host) == [PlainText(user), PlainText("@" + host)]
  {
    OneAt(user, host, DecodePiece);
    assert forall j :: 0 <= j <= |host| ==> !MatchAt(host, j);
  }

  /** A mention piece with no `@` in it. */
  lemma MentionNoAt(s: string, x: string, m: Mention, u: string)
    requires s == x + MentionText(m) + u
    requires '@' !in x && '@' !in m.text && '@' !in u
    ensures '@' !in s
  {
    NoNonDigitInDecimal(m.qq, '@');
  }

  /** As written, the lines after a mention's first one are lost. */
  lemma DropsAfterNewline(m: Mention, u: string)
    requires '@' !in m.text && '\n' !in m.text && '@' !in u
    ensures DecodeReply("@" + MentionText(m) + "\n" + u) == [PlainText(""), AtSomeone(m.qq), PlainText(m.text)]
  {
    var t := MentionText(m);
    var b := t + "\n" + u;
    AppendAssoc("@", t, "\n");
    AppendAssoc("@", t + "\n", u);
    AppendEmpty(t);
    AppendAssoc(t, "\n", u);
    MentionNoAt(b, "", m, "\n" + u);
    LeadingAt(b, DecodePiece);
    PieceAsWritten(b, "", m, "\n" + u);
  }

  /** As written, the text between an `@` and a later `<digits> ` is lost. */
  lemma DropsBeforeDigits(x: string, m: Mention)
    requires '@' !in x && '@' !in m.text && '\n' !in m.text
    requires forall j :: 0 <= j < |x| ==> !IsDigit(x[j])
    ensures DecodeReply("@" + x + MentionText(m)) == [PlainText(""), AtSomeone(m.qq), PlainText(m.text)]
  {
    var b := x + MentionText(m);
    AppendAssoc("@", x, MentionText(m));
    AppendEmpty(b);
    MentionNoAt(b, x, m, "");
    LeadingAt(b, DecodePiece);
    PieceAsWritten(b, x, m, "");
  }

  /** Two replies the decoder as written cuts short. */
  lemma DroppedExamples()
    ensures DecodeReply("@1 a\nb") == [PlainText(""), AtSomeone(1), PlainText("a")]
    ensures DecodeReply("@x 1 y") == [PlainText(""), AtSomeone(1), PlainText("y")]
  {
    assert NatToDecimal(1) == "1";
    DropsAfterNewline(Mention(1, "a"), "b");
    assert "@" + MentionText(Mention(1, "a")) + "\n" + "b" == "@1 a\nb";
    DropsBeforeDigits("x ", Mention(1, "y"));
    assert "@" + "x " + MentionText(Mention(1, "y")) == "@x 1 y";
  }

  /** The piece decoder the mention syntax calls for: the pattern anchored
      at the start of the piece (`^([0-9]+) `) and the whole remainder of
      the piece, newlines included, as the text. */
  function AnchoredPiece(s: string): seq<OutSegment>
  {
    var e := DigitEnd(s, 0);
    if e > 0 && e < |s| && s[e] == ' ' then [AtSomeone(ParseDecimal(s[..e])), PlainText(s[e + 1..])]
    else [PlainText("@" + s)]
  }

  function AnchoredDecode(reply: string): seq<OutSegment>
  {
    DecodeWith(reply, AnchoredPiece)
  }

  /** Anchored, a piece `<id> <text>` decodes as intended for any text. */
  lemma OnePieceAnchored(m: Mention)
    ensures AnchoredPiece(MentionText(m)) == [AtSomeone(m.qq), PlainText(m.text)]
  {
    var d, s := NatToDecimal(m.qq), MentionText(m);
    ParseNatToDecimal(m.qq);
    assert s[|d|] == ' ' && s[..|d|] == d && s[|d| + 1..] == m.text;
    DigitEndAt(s, 0, |d|);
  }

  /** Anchored, every reply written by Encode decodes as intended: no text
      is dropped, newlines included. */
  lemma AnchoredRoundTrip(pre: string, ms: seq<Mention>)
    requires '@' !in pre
    requires forall i :: 0 <= i < |ms| ==> '@' !in ms[i].text
    ensures AnchoredDecode(Encode(pre, ms)) == [PlainText(pre)] + Intended(ms)
  {
    forall i | 0 <= i < |ms|
      ensures AnchoredPiece(MentionText(ms[i])) == [AtSomeone(ms[i].qq), PlainText(ms[i].text)]
    {
      OnePieceAnchored(ms[i]);
    }
    RoundTripWith(pre, ms, AnchoredPiece);
  }

  /** Anchored, a piece not starting with a digit is kept whole with its
      `@`, so text before a later id is not lost. */
  lemma AnchoredKeepsPiece(x: string, m: Mention)
    requires '@' !in x && '@' !in m.text
    requires x != [] && !IsDigit(x[0])
    ensures AnchoredDecode("@" + x + MentionText(m)) == [PlainText(""), PlainText("@" + x + MentionText(m))]
  {
    var b := x + MentionText(m);
    AppendAssoc("@", x, MentionText(m));
    AppendEmpty(b);
    MentionNoAt(b, x, m, "");
    LeadingAt(b, AnchoredPiece);
    assert b[0] == x[0];
    assert DigitEnd(b, 0) == 0;
  }

  /** Anchored, the lines after a mention's first one stay in its text. */
  lemma AnchoredKeepsLines(m: Mention, u: string)
    requires '@' !in m.text && '@' !in u
    ensures AnchoredDecode("@" + MentionText(m) + "\n" + u)
      == [PlainText(""), AtSomeone(m.qq), PlainText(m.text + "\n" + u)]
  {
    var t := MentionText(m);
    var b := t + "\n" + u;
    var m' := Mention(m.qq, m.text + "\n" + u);
    AppendAssoc("@", t, "\n");
    AppendAssoc("@", t + "\n", u);
    AppendAssoc(t, "\n", u);
    AppendAssoc(NatToDecimal(m.qq) + " ", m.text, "\n" + u);
    AppendAssoc(m.text, "\n", u);
    assert MentionText(m') == b;
    AppendEmpty(b);
    MentionNoAt(b, "", m', "");
    LeadingAt(b, AnchoredPiece);
    OnePieceAnchored(m');
  }

  // ---------------------------------------------------------------------
  // The group-message handler

  /** What became of an incoming message. */
  datatype Arrival = Ignored | Recorded(engaged: bool) | ExtractionPanic

  /** The group's current session, or a new one with the default persona
      when the group has none; `nowSec` is the clock in unix seconds. */
  method CurrentOrNewSession(mgr: SessionManager, groupId: int, nowSec: int) returns (session: Session)
    requires mgr.Valid()
    modifies mgr
    ensures mgr.Valid() && session in mgr.sessionHistory && session.groupId == groupId
    ensures var cur := old(mgr.GetGroupCurrentSession(groupId));
      if cur != null then
        session == cur && mgr.groupSessions == old(mgr.groupSessions)
        && mgr.sessionHistory == old(mgr.sessionHistory)
      else
        && fresh(session) && session.sessionId == GroupSessionId(groupId, nowSec)
        && session.prompt == DefaultPrompt() && session.sessionName == "" && session.history == []
        && session.startTime == nowSec && session.userId == 0
        && mgr.groupSessions == old(mgr.groupSessions)[groupId := session.sessionId]
        && mgr.sessionHistory == old(mgr.sessionHistory) + [session]
  {
    var cur := mgr.GetGroupCurrentSession(groupId);
    if cur == null {
      session := mgr.CreateGroupSession(groupId, "", nowSec);
      assert mgr.sessionHistory[|mgr.sessionHistory| - 1] == session;
    } else {
      session := cur;
    }
  }

  /** Extracts the text of a message and, unless it is empty, records it in
      the session and decides by the gate whether to reply. */
  method RecordMessage(session: Session, senderId: int, ms: seq<Segment>, selfId: int,
                       toMe: bool, draw: int, now: int)
    returns (outcome: Arrival)
    modifies session
    ensures session.sessionId == old(session.sessionId) && session.groupId == old(session.groupId)
    ensures session.prompt == old(session.prompt) && session.sessionName == old(session.sessionName)
    ensures session.userId == old(session.userId) && session.startTime == old(session.startTime)
    ensures match ExtractText(ms, selfId)
      case TypeAssertionPanic => outcome == ExtractionPanic && session.history == old(session.history)
      case Plain(text) =>
        if text == "" then outcome == Ignored && session.history == old(session.history)
        else session.history == old(session.history) + [Record(senderId, now, text, toMe)]
             && outcome == Recorded(Engages(toMe, |session.history|, draw))
  {
    var extracted := CollectText(ms, selfId);
    if extracted.TypeAssertionPanic? {
      return ExtractionPanic;
    }
    var text := extracted.text;
    if text == "" {
      return Ignored;
    }
    session.AddHistory(senderId, text, toMe, now);
    outcome := Recorded(toMe || draw < Threshold(|session.history|));
  }

  /** The handler of a group message no other handler took: the session,
      then the message recorded in it. The clock is read twice, as in the
      source: `nowSec` (unix seconds) for a new session's id and start,
      `nowNs` (nanoseconds) for the record. Only the group's pointer, the
      session list and the chosen session's history can change. */
  method OnGroupMessage(mgr: SessionManager, groupId: int, senderId: int, ms: seq<Segment>,
                        selfId: int, toMe: bool, draw: int, nowSec: int, nowNs: int)
    returns (outcome: Arrival, session: Session)
    requires mgr.Valid()
    modifies mgr, mgr.sessionHistory
    ensures mgr.Valid() && session in mgr.sessionHistory && session.groupId == groupId
    ensures var cur := old(mgr.GetGroupCurrentSession(groupId));
      if cur != null then
        && session == cur && mgr.groupSessions == old(mgr.groupSessions)
        && mgr.sessionHistory == old(mgr.sessionHistory)
        && session.sessionId == old(cur.sessionId) && session.sessionName == old(cur.sessionName)
        && session.prompt == old(cur.prompt) && session.userId == old(cur.userId)
        && session.startTime == old(cur.startTime)
      else
        && fresh(session) && session.sessionId == GroupSessionId(groupId, nowSec)
        && session.prompt == DefaultPrompt() && session.sessionName == ""
        && session.startTime == nowSec && session.userId == 0
        && mgr.groupSessions == old(mgr.groupSessions)[groupId := session.sessionId]
        && mgr.sessionHistory == old(mgr.sessionHistory) + [session]
    ensures forall s :: s in old(mgr.sessionHistory) && s != session ==> unchanged(s)
    ensures var cur := old(mgr.GetGroupCurrentSession(groupId));
      var h0 := if cur != null then old(cur.history) else [];
      match ExtractText(ms, selfId)
      case TypeAssertionPanic => outcome == ExtractionPanic && session.history == h0
      case Plain(text) =>
        if text == "" then outcome == Ignored && session.history == h0
        else session.history == h0 + [Record(senderId, nowNs, text, toMe)]
             && outcome == Recorded(Engages(toMe, |session.history|, draw))
  {
    session := CurrentOrNewSession(mgr, groupId, nowSec);
    label Found:
    outcome := RecordMessage(session, senderId, ms, selfId, toMe, draw, nowNs);
    mgr.HistoryChanged@Found();
  }

  /** After the reply is sent: the decoded message, and the reply recorded
      in the session as a message of the bot not directed at it. */
  method RecordReply(session: Session, reply: string, now: int) returns (msg: seq<OutSegment>)
    modifies session
    ensures msg == DecodeReply(reply)
    ensures session.history == old(session.history) + [Record(ChatContext.BotUserId, now, reply, false)]
    ensures session.sessionId == old(session.sessionId) && session.groupId == old(session.groupId)
    ensures session.prompt == old(session.prompt) && session.sessionName == old(session.sessionName)
    ensures session.userId == old(session.userId) && session.startTime == old(session.startTime)
  {
    msg := DecodeMentions(reply);
    session.AddHistory(ChatContext.BotUserId, reply, false, now);
  }

  /** A recorded reply becomes the last turn of the next context, as an
      assistant turn with the reply verbatim. */
  lemma ReplyIsLastTurn(h: seq<Record>, reply: string, now: int)
    ensures var ts := ChatContext.Turns(h + [Record(ChatContext.BotUserId, now, reply, false)]);
      |ts| >= 1 && ts[|ts| - 1] == ChatContext.Turn(ChatContext.Assistant, reply)
  {
    var h' := h + [Record(ChatContext.BotUserId, now, reply, false)];
    ChatContext.LastTurn(h', 0, ChatContext.RecordText);
  }
}
