/** The context builder of the chatgpt plugin (`chatgpt.Reply` without the
    completion request): a session's history is folded into alternating
    user/assistant turns, the oldest turns are dropped to fit a 2000-byte
    budget, an omission marker is put in front of the first kept turn when
    something was dropped, and the first kept turn is wrapped in the
    instruction template. */
module ChatContext {
  import opened Text
  import opened ChatSession

  /** User id under which the bot's own replies are recorded. */
  const BotUserId: int := 114514

  /** Byte budget of the turns sent to the backend. */
  const Budget: nat := 2000

  function OmissionMarker(): string { "(在此之前的聊天记录被省略)" }

  /** Appended to a record whose message was directed at the bot. */
  function ToMeMark(): string { " (向你搭话)" }

  /** An instruction template split at its two `%s` verbs: the persona goes
      between head and middle, the first kept turn between middle and tail. */
  datatype Template = Template(head: string, middle: string, tail: string)

  /** The template `Reply` formats the first kept turn with. */
  function Instruction(): Template
  {
    Template(
      "现在有一个群聊，假设你是其中的一个成员。下面我将给出群聊中的聊天记录，格式为：ID: \"\"\"消息内容\"\"\"。不同成员具有不同的ID。例如，下面是两个人的聊天：\n"
      + "333444555: \"\"\"今天天气真好啊！\"\"\"\n"
      + "666874455: \"\"\"你有什么打算？\"\"\"\n"
      + "\n"
      + "消息内容可能包含多行文本，如果有人向你搭话，将会在对话后面特别标明。例如：\n"
      + "666874455: \"\"\"你有什么打算？\"\"\" (向你搭话)\n"
      + "这代表666874455向你搭话，内容为“你有什么打算？”。你应该及时回复他的内容，否则他会觉得你文不对题。\n"
      + "\n"
      + "有时候一个人的聊天会提到另一个人，通过“@ID ”的格式来表示，例如：\n"
      + "333444555: \"\"\"今天天气真好啊！@666874455 你怎么看\"\"\"\n"
      + "666874455: \"\"\"我觉得还行吧。\"\"\"\n"
      + "你可以根据其中的ID来判断他们在聊天的对象。\n"
      + "当你试图用ID来提及他人时，你应该使用“@ID ”的格式，请不要忘记添加ID后的空格。例如，如果你想要提及的ID为666874455，你应该使用“@666874455 ”。\n"
      + "而如果有人告诉你某ID对应的昵称，你可以使用昵称来提及他人。例如，如果你知道666874455的昵称为“小明”，你可以使用“小明”来提及他。\n"
      + "\n"
      + "有时候由于字数限制，聊天记录旧的部分会被省略，此时对话开头会有一条提示。例如：\n"
      + "(在此之前的聊天记录被省略)\n"
      + "666874455: \"\"\"哈哈哈\"\"\"\n"
      + "你可以当作你遗忘了前面的内容。你可以尝试推断出省略的部分，或者告诉他们你已经忘记了。\n"
      + "\n"
      + "请你理解他们聊天的话题，回复一条消息来参与进话题当中。闲聊回复的长度一般为一两句话，不需要包含任何格式。下面是对你的回复的要求：\n",
      "\n"
      + "\n"
      + "以下是聊天记录，请你忘掉上面例子中的聊天场景并回复：\n",
      "\n"
      + "\n"
      + "请注意，输出中不需要包含ID和双引号，输出内容即可。比如：\n"
      + "反面例子：114514:\"\"\"我要去看电影。\"\"\"\n"
      + "正确例子：我要去看电影。\n")
  }

  datatype Role = User | Assistant

  datatype Turn = Turn(role: Role, content: string)

  /** The backend's view of a session, or the index panic of the source. */
  datatype ContextResult =
    | Context(turns: seq<Turn>)
    /** `messages[stopIdx]` or `messages[0]` out of range. */
    | IndexOutOfRange

  predicate IsBot(r: Record) { r.userId == BotUserId }

  /** `fmt.Sprintf("%d: \"\"\"%s\"\"\"%s\n", id, message, special)`: the
      id, the message in triple quotes, the suffix, newline. */
  function UserLine(id: int, message: string, special: string): string
  {
    IntToDecimal(id) + ": \"\"\"" + message + "\"\"\"" + special + "\n"
  }

  /** The line of one user record; the suffix is the directed-at-bot mark
      when the message was directed at the bot. */
  function RecordText(r: Record): string
  {
    UserLine(r.userId, r.message, if r.isToMe then ToMeMark() else "")
  }

  // The folding below takes the line of a user record as a parameter
  // `line`; `Turns` fixes it to `RecordText`. What is proved about the
  // folding therefore holds whatever the line format.

  /** The lines of the records h[i], ..., h[j - 1], in order. */
  function RunText(h: seq<Record>, i: nat, j: nat, line: Record -> string): string
    requires i <= j <= |h|
    decreases j - i
  {
    if i == j then "" else RunText(h, i, j - 1, line) + line(h[j - 1])
  }

  /** The first bot record at or after i, or |h| when there is none. */
  function RunEnd(h: seq<Record>, i: nat): (k: nat)
    requires i <= |h|
    ensures i <= k <= |h|
    ensures forall j {:trigger IsBot(h[j])} :: i <= j < k ==> !IsBot(h[j])
    ensures k < |h| ==> IsBot(h[k])
    decreases |h| - i
  {
    if i == |h| || IsBot(h[i]) then i else RunEnd(h, i + 1)
  }

  /** The turns of the history from record i on: each maximal run of user
      records (possibly empty) is one user turn, each bot record one
      assistant turn. */
  function TurnsFrom(h: seq<Record>, i: nat, line: Record -> string): seq<Turn>
    requires i <= |h|
    decreases |h| - i
  {
    if i == |h| then []
    else
      var k := RunEnd(h, i);
      if k < |h| then [Turn(User, RunText(h, i, k, line)), Turn(Assistant, h[k].message)] + TurnsFrom(h, k + 1, line)
      else [Turn(User, RunText(h, i, k, line))]
  }

  /** The turns of a whole history, with the source's line format. */
  function Turns(h: seq<Record>): seq<Turn>
  {
    TurnsFrom(h, 0, RecordText)
  }

  // ---------------------------------------------------------------------
  // Properties of the turns

  /** Roles alternate, starting with a user turn (two roles, so neighbours
      differing is alternation). */
  predicate Alternates(ts: seq<Turn>)
  {
    && (|ts| > 0 ==> ts[0].role == User)
    && forall i :: 0 < i < |ts| ==> ts[i].role != ts[i - 1].role
  }

  /** Turns strictly alternate roles, starting with a user turn. */
  lemma {:induction false} TurnsAlternate(h: seq<Record>, i: nat, line: Record -> string)
    requires i <= |h|
    ensures Alternates(TurnsFrom(h, i, line))
    decreases |h| - i
  {
    if i < |h| {
      var k := RunEnd(h, i);
      if k < |h| {
        TurnsAlternate(h, k + 1, line);
        var t, rest := TurnsFrom(h, i, line), TurnsFrom(h, k + 1, line);
        assert t == [t[0], t[1]] + rest;
        forall n | 2 < n < |t| ensures t[n].role != t[n - 1].role {
          assert t[n] == rest[n - 2] && t[n - 1] == rest[n - 3];
        }
      }
    }
  }

  /** The messages of the bot records from record i on, in order. */
  function BotMessagesFrom(h: seq<Record>, i: nat): seq<string>
    requires i <= |h|
    decreases |h| - i
  {
    if i == |h| then [] else (if IsBot(h[i]) then [h[i].message] else []) + BotMessagesFrom(h, i + 1)
  }

  /** The contents of the assistant turns, in order. */
  function AssistantContents(ts: seq<Turn>): seq<string>
  {
    if ts == [] then [] else (if ts[0].role == Assistant then [ts[0].content] else []) + AssistantContents(ts[1..])
  }

  lemma {:induction false} BotMessagesSkip(h: seq<Record>, i: nat, k: nat)
    requires i <= k <= |h|
    requires forall j {:trigger IsBot(h[j])} :: i <= j < k ==> !IsBot(h[j])
    ensures BotMessagesFrom(h, i) == BotMessagesFrom(h, k)
    decreases k - i
  {
    if i < k {
      BotMessagesSkip(h, i + 1, k);
      assert BotMessagesFrom(h, i) == [] + BotMessagesFrom(h, i + 1);
    }
  }

  lemma AssistantContentsPair(u: Turn, a: Turn, r: seq<Turn>)
    requires u.role == User && a.role == Assistant
    ensures AssistantContents([u, a] + r) == [a.content] + AssistantContents(r)
  {
    var t := [u, a] + r;
    assert t[0] == u && t[1..][0] == a && t[1..][1..] == r;
    assert AssistantContents(t) == [] + AssistantContents(t[1..]);
  }

  /** Each assistant turn is one bot record's message verbatim, in order,
      and every bot record gives one. */
  lemma {:induction false} AssistantTurnsAreBotMessages(h: seq<Record>, i: nat, line: Record -> string)
    requires i <= |h|
    ensures AssistantContents(TurnsFrom(h, i, line)) == BotMessagesFrom(h, i)
    decreases |h| - i
  {
    if i < |h| {
      var k := RunEnd(h, i);
      BotMessagesSkip(h, i, k);
      var u := Turn(User, RunText(h, i, k, line));
      if k < |h| {
        var a, rest := Turn(Assistant, h[k].message), TurnsFrom(h, k + 1, line);
        assert TurnsFrom(h, i, line) == [u, a] + rest;
        AssistantTurnsAreBotMessages(h, k + 1, line);
        AssistantContentsPair(u, a, rest);
        assert BotMessagesFrom(h, k) == [h[k].message] + BotMessagesFrom(h, k + 1);
      } else {
        assert TurnsFrom(h, i, line) == [u];
        assert [u][1..] == [];
        assert AssistantContents([u]) == [] + AssistantContents([]);
      }
    }
  }

  /** From any record of a history on: two turns per bot record, plus a final
      user turn when the last record is not the bot's. */
  lemma {:induction false} TurnsCount(h: seq<Record>, i: nat, line: Record -> string)
    requires i < |h|
    ensures |TurnsFrom(h, i, line)| == 2 * |BotMessagesFrom(h, i)| + (if IsBot(h[|h| - 1]) then 0 else 1)
    decreases |h| - i
  {
    var k := RunEnd(h, i);
    BotMessagesSkip(h, i, k);
    if k < |h| {
      assert BotMessagesFrom(h, k) == [h[k].message] + BotMessagesFrom(h, k + 1);
      if k + 1 < |h| {
        TurnsCount(h, k + 1, line);
      }
    }
  }

  lemma LastOfAppend<T>(a: seq<T>, b: seq<T>)
    requires b != []
    ensures (a + b)[|a + b| - 1] == b[|b| - 1]
  {
  }

  /** The last turn is an assistant turn exactly when the last record is
      the bot's, and then it is that record's message. */
  lemma {:induction false} LastTurn(h: seq<Record>, i: nat, line: Record -> string)
    requires i < |h|
    ensures var t := TurnsFrom(h, i, line);
      && |t| >= 1
      && (t[|t| - 1].role == Assistant <==> IsBot(h[|h| - 1]))
      && (IsBot(h[|h| - 1]) ==> t[|t| - 1].content == h[|h| - 1].message)
    decreases |h| - i
  {
    var k := RunEnd(h, i);
    var u := Turn(User, RunText(h, i, k, line));
    if k < |h| {
      var a, rest := Turn(Assistant, h[k].message), TurnsFrom(h, k + 1, line);
      assert TurnsFrom(h, i, line) == [u, a] + rest;
      if k + 1 < |h| {
        LastTurn(h, k + 1, line);
        LastOfAppend([u, a], rest);
      } else {
        assert rest == [];
        assert [u, a] + rest == [u, a];
      }
    } else {
      assert TurnsFrom(h, i, line) == [u];
    }
  }

  /** The turns' contents read one after the other. */
  function Flat(ts: seq<Turn>): string
  {
    if ts == [] then "" else ts[0].content + Flat(ts[1..])
  }

  /** How one record shows in the turns: a bot message verbatim, a user
      record as its line. */
  function Rendered(r: Record, line: Record -> string): string
  {
    if IsBot(r) then r.message else line(r)
  }

  /** The records from i on, rendered one after the other. */
  function RenderFrom(h: seq<Record>, i: nat, line: Record -> string): string
    requires i <= |h|
    decreases |h| - i
  {
    if i == |h| then "" else Rendered(h[i], line) + RenderFrom(h, i + 1, line)
  }

  /** A run of user records renders as the run's text. */
  lemma {:induction false} RenderRun(h: seq<Record>, i: nat, k: nat, line: Record -> string)
    requires i <= k <= |h|
    requires forall j {:trigger IsBot(h[j])} :: i <= j < k ==> !IsBot(h[j])
    ensures RenderFrom(h, i, line) == RunText(h, i, k, line) + RenderFrom(h, k, line)
    decreases k - i
  {
    if i < k {
      var init, last, rest := RunText(h, i, k - 1, line), line(h[k - 1]), RenderFrom(h, k, line);
      RenderRun(h, i, k - 1, line);
      assert RenderFrom(h, k - 1, line) == last + rest;
      AppendAssoc(init, last, rest);
    } else {
      AppendEmpty(RenderFrom(h, k, line));
    }
  }

  lemma FlatPair(u: Turn, a: Turn, r: seq<Turn>)
    ensures Flat([u, a] + r) == u.content + (a.content + Flat(r))
  {
    var t := [u, a] + r;
    assert t[0] == u && t[1..][0] == a && t[1..][1..] == r;
  }

  /** Folding loses and reorders nothing: the turns, read one after the
      other, are the records rendered one after the other. */
  lemma {:induction false} TurnsFlatten(h: seq<Record>, i: nat, line: Record -> string)
    requires i <= |h|
    ensures Flat(TurnsFrom(h, i, line)) == RenderFrom(h, i, line)
    decreases |h| - i
  {
    if i < |h| {
      var k := RunEnd(h, i);
      var u := RunText(h, i, k, line);
      RenderRun(h, i, k, line);
      if k < |h| {
        var m := h[k].message;
        TurnsFlatten(h, k + 1, line);
        FlatPair(Turn(User, u), Turn(Assistant, m), TurnsFrom(h, k + 1, line));
        assert RenderFrom(h, k, line) == m + RenderFrom(h, k + 1, line);
      } else {
        var t := [Turn(User, u)];
        assert t[1..] == [];
        assert Flat(t) == u + "";
      }
    }
  }

  // ---------------------------------------------------------------------
  // The budget

  /** Bytes of one turn's content (Go's `len`). */
  function Weight(t: Turn): nat
  {
    Utf8Len(t.content)
  }

  /** Sum of the weights of the turns from index i on. */
  function SuffixTotal(ts: seq<Turn>, i: nat): nat
    decreases |ts| - i
  {
    if i >= |ts| then 0 else Weight(ts[i]) + SuffixTotal(ts, i + 1)
  }

  /** Longer suffixes weigh at least as much. */
  lemma {:induction false} SuffixTotalMono(ts: seq<Turn>, i: int, j: int)
    ensures 0 <= i <= j ==> SuffixTotal(ts, i) >= SuffixTotal(ts, j)
    decreases j - i
  {
    if 0 <= i < j {
      SuffixTotalMono(ts, i + 1, j);
    }
  }

  /** Scanning down from index i, with the turns after i known to fit: the
      first index whose suffix exceeds the budget, or -1. */
  function ScanDown(ts: seq<Turn>, i: int): (r: int)
    requires -1 <= i < |ts|
    requires SuffixTotal(ts, i + 1) <= Budget
    ensures -1 <= r <= i
    ensures SuffixTotal(ts, r + 1) <= Budget
    ensures r >= 0 ==> SuffixTotal(ts, r) > Budget
    decreases i + 1
  {
    if i < 0 then -1
    else if SuffixTotal(ts, i) > Budget then i
    else ScanDown(ts, i - 1)
  }

  /** The first index, scanning from the end, at which the running total
      would exceed the budget; -1 when the whole sequence fits. */
  function LastOver(ts: seq<Turn>): (r: int)
    ensures -1 <= r < |ts|
    ensures SuffixTotal(ts, r + 1) <= Budget
    ensures r >= 0 ==> SuffixTotal(ts, r) > Budget
  {
    ScanDown(ts, |ts| - 1)
  }

  /** The scan position is determined by the two budget facts. */
  lemma LastOverIs(ts: seq<Turn>, i: int)
    requires -1 <= i < |ts|
    requires SuffixTotal(ts, i + 1) <= Budget
    requires i >= 0 ==> SuffixTotal(ts, i) > Budget
    ensures LastOver(ts) == i
  {
    var r := LastOver(ts);
    SuffixTotalMono(ts, r + 1, i);
    SuffixTotalMono(ts, i + 1, r);
  }

  /** Start of the kept suffix: the overflow index if it is a user turn,
      the next one if it is an assistant turn, 0 when all fits. */
  function Cut(ts: seq<Turn>): (c: nat)
    ensures c <= |ts|
    ensures SuffixTotal(ts, 0) <= Budget ==> c == 0
  {
    var i := LastOver(ts);
    SuffixTotalMono(ts, 0, i);
    if i < 0 then 0 else if ts[i].role == User then i else i + 1
  }

  /** The cut is fixed by where the running total first exceeds the budget. */
  lemma CutIs(ts: seq<Turn>, i: nat)
    requires i < |ts|
    requires SuffixTotal(ts, i + 1) <= Budget < SuffixTotal(ts, i)
    ensures Cut(ts) == if ts[i].role == User then i else i + 1
  {
    LastOverIs(ts, i);
  }

  lemma FitsFurther(ts: seq<Turn>, i: int, j: int)
    requires 0 <= i <= j
    requires SuffixTotal(ts, i) <= Budget
    ensures SuffixTotal(ts, j) <= Budget
  {
    SuffixTotalMono(ts, i, j);
  }

  /** The cut in each of its three cases. */
  lemma CutCases(ts: seq<Turn>)
    ensures LastOver(ts) < 0 ==> Cut(ts) == 0
    ensures LastOver(ts) >= 0 && ts[LastOver(ts)].role == User ==> Cut(ts) == LastOver(ts)
    ensures LastOver(ts) >= 0 && ts[LastOver(ts)].role != User ==> Cut(ts) == LastOver(ts) + 1
  {
  }

  /** What follows the cut fits the budget. */
  lemma CutRestFits(ts: seq<Turn>)
    ensures SuffixTotal(ts, Cut(ts) + 1) <= Budget
  {
    var i := LastOver(ts);
    var c := Cut(ts);
    CutCases(ts);
    FitsFurther(ts, i + 1, c + 1);
  }

  /** One more turn before the cut would not fit. */
  lemma CutBeforeOver(ts: seq<Turn>)
    requires 0 < Cut(ts) < |ts|
    ensures SuffixTotal(ts, Cut(ts) - 1) > Budget
  {
    var i := LastOver(ts);
    if ts[i].role == User {
      assert Cut(ts) == i;
      SuffixTotalMono(ts, i - 1, i);
    } else {
      assert Cut(ts) == i + 1;
    }
  }

  /** On alternating turns the kept suffix starts with a user turn. */
  lemma CutAtUser(ts: seq<Turn>)
    requires Alternates(ts)
    requires Cut(ts) < |ts|
    ensures ts[Cut(ts)].role == User
  {
    var i := LastOver(ts);
    if i >= 0 && ts[i].role != User {
      assert ts[i + 1].role != ts[i].role;
    }
  }

  /** The instruction template with the persona and the first turn. */
  function Wrap(t: Template, persona: string, content: string): string
  {
    t.head + persona + t.middle + content + t.tail
  }

  /** What `Reply` sends, or its index panic: the turns from the cut on, the
      first of them behind the omission marker when the cut is not 0, then
      wrapped in the template. */
  function BuildContext(h: seq<Record>, persona: string, t: Template): ContextResult
  {
    var ts := Turns(h);
    Assembled(ts, Cut(ts), persona, t)
  }

  /** The turns from index c on, the first behind the omission marker when c
      is not 0 and wrapped in the template; the index panic when there is no
      turn at c. */
  function Assembled(ts: seq<Turn>, c: nat, persona: string, t: Template): ContextResult
  {
    if c >= |ts| then IndexOutOfRange
    else Context([Turn(ts[c].role, Wrap(t, persona, (if c > 0 then OmissionMarker() else "") + ts[c].content))] + ts[c + 1..])
  }

  // ---------------------------------------------------------------------
  // Properties of the context

  /** The source indexes out of range exactly when the history is empty or
      its last record is a bot reply that alone exceeds the budget. */
  lemma ContextPanics(h: seq<Record>, persona: string, t: Template)
    ensures BuildContext(h, persona, t).IndexOutOfRange?
        <==> h == [] || (IsBot(h[|h| - 1]) && Utf8Len(h[|h| - 1].message) > Budget)
  {
    if h != [] {
      var ts := Turns(h);
      LastTurn(h, 0, RecordText);
      var n := |ts|;
      if Utf8Len(ts[n - 1].content) > Budget {
        LastOverIs(ts, n - 1);
      }
    }
  }

  /** When everything fits, no turn is dropped and there is no marker. */
  lemma ContextWhenAllFits(h: seq<Record>, persona: string, t: Template)
    requires h != []
    requires SuffixTotal(Turns(h), 0) <= Budget
    ensures var ts := Turns(h);
      BuildContext(h, persona, t) == Context([Turn(User, Wrap(t, persona, ts[0].content))] + ts[1..])
  {
    TurnsAlternate(h, 0, RecordText);
    assert "" + Turns(h)[0].content == Turns(h)[0].content;
  }

  /** A successful context is the suffix of the turns from the cut on, with
      only its first turn changed: by the marker (exactly when the cut is not
      0) and the template. */
  lemma ContextShape(h: seq<Record>, persona: string, t: Template)
    requires BuildContext(h, persona, t).Context?
    ensures var ts := Turns(h);
      var c := Cut(ts);
      var rs := BuildContext(h, persona, t).turns;
      && c < |ts| && |rs| == |ts| - c
      && rs[1..] == ts[c + 1..]
      && rs[0].role == ts[c].role
      && rs[0].content == Wrap(t, persona, (if c > 0 then OmissionMarker() else "") + ts[c].content)
  {
  }

  /** The first turn sent is a user turn, the turns after it fit the budget,
      and the turn before the cut would not have. */
  lemma ContextBudget(h: seq<Record>, persona: string, t: Template)
    requires BuildContext(h, persona, t).Context?
    ensures var ts := Turns(h);
      var c := Cut(ts);
      && c < |ts|
      && BuildContext(h, persona, t).turns[0].role == User
      && SuffixTotal(ts, c + 1) <= Budget
      && (c > 0 ==> SuffixTotal(ts, c - 1) > Budget)
  {
    var ts := Turns(h);
    TurnsAlternate(h, 0, RecordText);
    CutAtUser(ts);
    CutRestFits(ts);
    if Cut(ts) > 0 {
      CutBeforeOver(ts);
    }
  }

  /** A user turn followed by the turns after a user turn alternates. */
  lemma AlternatesSuffix(ts: seq<Turn>, c: nat, t: Turn)
    requires Alternates(ts) && c < |ts| && ts[c].role == User && t.role == User
    ensures Alternates([t] + ts[c + 1..])
  {
    var rs := [t] + ts[c + 1..];
    forall k | 1 < k < |rs| ensures rs[k].role != rs[k - 1].role {
      assert rs[k] == ts[c + k] && rs[k - 1] == ts[c + k - 1];
    }
    if |rs| > 1 {
      assert rs[1] == ts[c + 1];
    }
  }

  /** The turns sent still alternate, starting with a user turn. */
  lemma ContextAlternates(h: seq<Record>, persona: string, t: Template)
    requires BuildContext(h, persona, t).Context?
    ensures Alternates(BuildContext(h, persona, t).turns)
  {
    var ts := Turns(h);
    var rs := BuildContext(h, persona, t).turns;
    ContextShape(h, persona, t);
    ContextBudget(h, persona, t);
    TurnsAlternate(h, 0, RecordText);
    assert rs == [rs[0]] + ts[Cut(ts) + 1..];
    AlternatesSuffix(ts, Cut(ts), rs[0]);
  }

  // ---------------------------------------------------------------------
  // The source's loops

  /** Nothing is left to fold at the end of the history. */
  lemma EndTurns(h: seq<Record>, messages: seq<Turn>, line: Record -> string)
    ensures messages + TurnsFrom(h, |h|, line) == messages
  {
    assert messages + [] == messages;
  }

  lemma Splice<T>(m: seq<T>, t: seq<T>, whole: seq<T>, u: T, a: T, r: seq<T>)
    requires m + t == whole && t == [u, a] + r
    ensures m + [u] + [a] + r == whole
  {
    assert m + [u] + [a] + r == m + ([u, a] + r);
  }

  /** The outer loop's invariant is kept by one round. */
  lemma FoldStep(h: seq<Record>, start: nat, idx: nat, messages: seq<Turn>, whole: seq<Turn>, line: Record -> string)
    requires start < |h| && idx == RunEnd(h, start)
    requires messages + TurnsFrom(h, start, line) == whole
    ensures idx < |h| ==>
      messages + [Turn(User, RunText(h, start, idx, line))] + [Turn(Assistant, h[idx].message)] + TurnsFrom(h, idx + 1, line) == whole
    ensures idx == |h| ==> messages + [Turn(User, RunText(h, start, idx, line))] == whole
  {
    var u := Turn(User, RunText(h, start, idx, line));
    if idx < |h| {
      var a := Turn(Assistant, h[idx].message);
      assert TurnsFrom(h, start, line) == [u, a] + TurnsFrom(h, idx + 1, line);
      Splice(messages, TurnsFrom(h, start, line), whole, u, a, TurnsFrom(h, idx + 1, line));
    } else {
      assert TurnsFrom(h, start, line) == [u];
    }
  }

  /** The inner loop's invariant is kept by one round. */
  lemma RunStep(h: seq<Record>, start: nat, idx: nat, str: string, l: string, line: Record -> string)
    requires start <= idx < |h| && !IsBot(h[idx])
    requires str == RunText(h, start, idx, line) && l == line(h[idx])
    ensures str + l == RunText(h, start, idx + 1, line)
    ensures RunEnd(h, idx + 1) == RunEnd(h, idx)
  {
  }

  /** The inner loop of `Reply`'s folding: the lines of the user records
      from `start` up to the next bot record or the end. */
  method CollectRun(history: seq<Record>, start: nat) returns (idx: nat, str: string)
    requires start <= |history|
    ensures idx == RunEnd(history, start)
    ensures str == RunText(history, start, idx, RecordText)
  {
    idx := start;
    str := "";
    while idx < |history| && history[idx].userId != BotUserId
      invariant start <= idx <= |history|
      invariant RunEnd(history, idx) == RunEnd(history, start)
      invariant str == RunText(history, start, idx, RecordText)
      decreases |history| - idx
    {
      var record := history[idx];
      var special := "";
      if record.isToMe {
        special := ToMeMark();
      }
      var line := UserLine(record.userId, record.message, special);
      RunStep(history, start, idx, str, line, RecordText);
      str := str + line;
      idx := idx + 1;
    }
  }

  /** The outer loop of `Reply`'s folding: one user turn per run, one
      assistant turn per bot record. */
  method BuildTurns(history: seq<Record>) returns (messages: seq<Turn>)
    ensures messages == Turns(history)
  {
    messages := [];
    var idx := 0;
    assert messages + TurnsFrom(history, 0, RecordText) == Turns(history);
    while idx < |history|
      invariant 0 <= idx <= |history|
      invariant messages + TurnsFrom(history, idx, RecordText) == Turns(history)
      decreases |history| - idx
    {
      var start := idx;
      var str;
      idx, str := CollectRun(history, start);
      FoldStep(history, start, idx, messages, Turns(history), RecordText);
      messages := messages + [Turn(User, str)];
      if idx < |history| {
        messages := messages + [Turn(Assistant, history[idx].message)];
        idx := idx + 1;
      } else {
        EndTurns(history, messages, RecordText);
      }
    }
    EndTurns(history, messages, RecordText);
  }

  /** The backward budget scan of `Reply`. */
  method FindStop(messages: seq<Turn>) returns (stopIdx: nat)
    ensures stopIdx == Cut(messages)
  {
    var charCount := 0;
    stopIdx := 0;
    var i := |messages| - 1;
    while i >= 0
      invariant -1 <= i < |messages|
      invariant charCount == SuffixTotal(messages, i + 1)
      invariant charCount <= Budget
    {
      if charCount + Utf8Len(messages[i].content) > Budget {
        LastOverIs(messages, i);
        stopIdx := i;
        if messages[stopIdx].role != User {
          stopIdx := stopIdx + 1;
        }
        return;
      }
      charCount := charCount + Utf8Len(messages[i].content);
      i := i - 1;
    }
    LastOverIs(messages, -1);
  }

  /** The tail of `Reply`: mark the turn at the cut, drop what is before it
      and wrap the first turn kept. */
  method Assemble(messages: seq<Turn>, stopIdx: nat, persona: string, t: Template) returns (r: ContextResult)
    ensures r == Assembled(messages, stopIdx, persona, t)
  {
    var ms := messages;
    if stopIdx > 0 {
      if stopIdx >= |ms| {
        return IndexOutOfRange;
      }
      ms := ms[stopIdx := Turn(ms[stopIdx].role, OmissionMarker() + ms[stopIdx].content)];
    }
    if stopIdx >= |ms| {
      return IndexOutOfRange;
    }
    ms := ms[stopIdx..];
    ghost var first := (if stopIdx > 0 then OmissionMarker() else "") + messages[stopIdx].content;
    assert stopIdx == 0 ==> first == messages[stopIdx].content;
    assert ms == [Turn(messages[stopIdx].role, first)] + messages[stopIdx + 1..];
    var wrapped := Wrap(t, persona, ms[0].content);
    ms := ms[0 := Turn(ms[0].role, wrapped)];
    assert ms == [Turn(messages[stopIdx].role, wrapped)] + messages[stopIdx + 1..];
    r := Context(ms);
  }

  /** `chatgpt.Reply` up to the completion request: the turns of the
      session's history, cut to the budget, marked and wrapped. */
  method ReplyMessages(s: Session) returns (r: ContextResult)
    ensures r == BuildContext(s.history, s.prompt, Instruction())
  {
    r := ReplyMessagesWith(s, Instruction());
  }

  /** The steps of `Reply` with the template as a parameter. */
  method ReplyMessagesWith(s: Session, t: Template) returns (r: ContextResult)
    ensures r == BuildContext(s.history, s.prompt, t)
  {
    var messages := BuildTurns(s.history);
    var stopIdx := FindStop(messages);
    r := Assemble(messages, stopIdx, s.prompt, t);
  }
}
